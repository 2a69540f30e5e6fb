/**
 * The per-instance worker of src/instance.py: an `Instance` object holding
 * its configuration, the `run` flag and the last frame and detection result,
 * and the two polling loops (`YoutubeInstance.start`, `CameraInstance.start`).
 *
 * Capture, encoding and HTTP are outside the model: every loop iteration is
 * driven by an abstract outcome (frame read or not, HTTP status, body parsed
 * or not), and clock readings are integers supplied with the outcome. A call
 * of `stop()` from another thread is the event `StopSignal`: the loop sees it
 * at its next `while self.run` check.
 */
module InstanceWorker {
  import opened Json
  import opened Text

  /** The `instance_type` string of the two subclasses. */
  datatype Kind = Youtube | Camera {
    function Name(): string {
      match this
      case Youtube => "youtube"
      case Camera => "camera"
    }
  }

  /** `./frames/{instance_type}_{name.lower() without spaces}.jpg`: the file the loop overwrites. */
  function FrameFile(kind: Kind, name: string): (r: string)
    ensures |r| > 13 && r[..9] == "./frames/" && r[|r| - 4..] == ".jpg"
    ensures r[9..|r| - 4] == kind.Name() + "_" + NormalizeName(name)
  {
    var middle := kind.Name() + "_" + NormalizeName(name);
    var r := "./frames/" + middle + ".jpg";
    assert r[..9] == "./frames/" && r[9..|r| - 4] == middle && r[|r| - 4..] == ".jpg";
    r
  }

  /** Two instances of one type share a frame file exactly when their names agree up to capitals and spaces. */
  lemma FrameFileShared(kind: Kind, a: string, b: string)
    ensures FrameFile(kind, a) == FrameFile(kind, b) <==> NormalizeName(a) == NormalizeName(b)
  {
    var fa, fb := FrameFile(kind, a), FrameFile(kind, b);
    var n := |kind.Name()| + 1;
    if fa == fb {
      assert fa[9..|fa| - 4][n..] == NormalizeName(a);
      assert fb[9..|fb| - 4][n..] == NormalizeName(b);
    }
  }

  /** Names that differ only in capitals and spaces share one frame file. */
  lemma FrameFileOfNormalized(kind: Kind, name: string)
    ensures FrameFile(kind, NormalizeName(name)) == FrameFile(kind, name)
  {
    NormalizeIdempotent(name);
  }

  /** A stream instance and a camera instance never share a frame file. */
  lemma FrameFileKindsDiffer(a: string, b: string)
    ensures FrameFile(Youtube, a) != FrameFile(Camera, b)
  {
    assert FrameFile(Youtube, a)[9] == 'y';
    assert FrameFile(Camera, b)[9] == 'c';
  }

  /** The subclass-specific constructor arguments, as given (untyped JSON values). */
  datatype Source =
    | StreamSource(youtubeUrl: Value)
    | CameraSource(cameraUrl: Value, cameraUsername: Value, cameraPassword: Value, folderPath: Value)
  {
    function Kind(): Kind {
      if StreamSource? then Youtube else Camera
    }
  }

  /** The constructor arguments of `YoutubeInstance` / `CameraInstance`. */
  datatype Params = Params(
    id: Value,
    name: string,
    source: Source,
    lookoutEndpoint: Value,
    frequency: Value,
    latitude: Value,
    longitude: Value)

  /** A captured image; its pixels are opaque here. */
  datatype Frame = Frame(pixels: seq<int>)

  /** What `response.json()` gave: malformed bodies raise. */
  datatype Body = Unparsable | Parsed(json: Value)

  /** The detection POST: a transport exception, or a response. */
  datatype PostOutcome = PostRaised | Response(status: int, body: Body)

  /** One turn of a polling loop as seen from outside: another thread called `stop()`, or an iteration ran. */
  datatype Event<T> = StopSignal | Tick(tick: T)

  /**
   * Stream iteration: the clock at the top of the loop, how much later than
   * asked the sleep ended (the clock is read again after it), `cap.read()`,
   * and the POST.
   */
  datatype StreamTick = StreamTick(now: int, overslept: nat, read: Option<Frame>, post: PostOutcome)

  /** `ydl.extract_info` and `cv2.VideoCapture` before the stream loop. */
  datatype StreamOpen = NoInfo | NotOpened | Opened

  /** The camera GET: an exception, or a status with the decoded image (None when `imdecode` fails). */
  datatype Capture = CaptureRaised | Captured(status: int, decoded: Option<Frame>)

  /** Camera iteration: clock at the top, the GET, the POST, and the clock before the final sleep. */
  datatype CameraTick = CameraTick(start: int, capture: Capture, post: PostOutcome, end: int)

  /** The externally visible fields a loop updates. */
  datatype Observed = Observed(latestFrame: Option<Frame>, latestDetections: Value)

  /** Stream loop state: the observed fields and the local `t`. */
  datatype StreamState = StreamState(t: int, obs: Observed)

  /** The new state after an iteration and the sleeps it performed, in order. */
  datatype Step<S> = Step(next: S, pauses: seq<nat>)

  /** The fixed back-off after a failed capture, in seconds. */
  const Backoff: nat := 5

  /**
   * The sleep that ends a tick: `max(0, frequency - elapsed)`. The stream loop
   * calls `time.sleep(frequency - elapsed)` and swallows the ValueError a
   * negative length raises, which is the same sleep.
   */
  function TickSleep(frequency: int, elapsed: int): (d: nat)
    ensures elapsed + d >= frequency
    ensures elapsed <= frequency ==> elapsed + d == frequency
    ensures elapsed >= frequency ==> d == 0
  {
    if frequency - elapsed < 0 then 0 else frequency - elapsed
  }

  /** The POST delivered a detection result: status 200 and a body that parses. */
  predicate Delivers(post: PostOutcome) {
    post.Response? && post.status == 200 && post.body.Parsed?
  }

  /** `latest_detections` after a POST: overwritten only by a delivered result. */
  function AfterPost(detections: Value, post: PostOutcome): (r: Value)
    ensures Delivers(post) ==> r == post.body.json
    ensures !Delivers(post) ==> r == detections
  {
    if Delivers(post) then post.body.json else detections
  }

  /** One iteration of the `while self.run` loop of `YoutubeInstance.start`. */
  function StreamStep(frequency: int, s: StreamState, tick: StreamTick): (r: Step<StreamState>)
    ensures r.next.t == (if tick.now >= s.t + frequency then tick.now else s.t + frequency) + tick.overslept
    ensures |r.pauses| >= 1 && tick.now + r.pauses[0] + tick.overslept == r.next.t
    ensures tick.read.None? ==> r.next.obs == s.obs && r.pauses[1..] == [Backoff]
    ensures tick.read.Some? ==> r.next.obs == Observed(tick.read, AfterPost(s.obs.latestDetections, tick.post))
    ensures tick.read.Some? ==> |r.pauses| == 1
  {
    var d := TickSleep(frequency, tick.now - s.t);
    var t := tick.now + d + tick.overslept;
    match tick.read
    case None => Step(StreamState(t, s.obs), [d, Backoff])
    case Some(frame) => Step(StreamState(t, Observed(Some(frame), AfterPost(s.obs.latestDetections, tick.post))), [d])
  }

  /** Iterations until the first stop signal. */
  function StreamRun(frequency: int, s: StreamState, events: seq<Event<StreamTick>>): Step<StreamState>
    decreases |events|
  {
    if events == [] || events[0].StopSignal? then Step(s, [])
    else
      var first := StreamStep(frequency, s, events[0].tick);
      var rest := StreamRun(frequency, first.next, events[1..]);
      Step(rest.next, first.pauses + rest.pauses)
  }

  /** A run prefixed by pauses already taken. */
  function After<S>(pauses: seq<nat>, r: Step<S>): Step<S> {
    Step(r.next, pauses + r.pauses)
  }

  /** Unfolding one stream iteration of a suffix. */
  lemma StreamRunTick(frequency: int, s: StreamState, events: seq<Event<StreamTick>>, i: nat)
    requires i < |events| && events[i].Tick?
    ensures var first := StreamStep(frequency, s, events[i].tick);
      StreamRun(frequency, s, events[i..]) == After(first.pauses, StreamRun(frequency, first.next, events[i + 1..]))
  {
    assert events[i..][1..] == events[i + 1..];
  }

  lemma AfterAfter<S>(p: seq<nat>, q: seq<nat>, r: Step<S>)
    ensures After(p, After(q, r)) == After(p + q, r)
  {
    assert p + (q + r.pauses) == (p + q) + r.pauses;
  }

  /** A stop signal ends the loop: nothing after it has any effect. */
  lemma {:induction false} StreamRunStopsAtSignal(frequency: int, s: StreamState, events: seq<Event<StreamTick>>, k: nat)
    requires k < |events| && events[k].StopSignal?
    ensures StreamRun(frequency, s, events) == StreamRun(frequency, s, events[..k])
    decreases k
  {
    if k == 0 || events[0].StopSignal? {
      assert k > 0 ==> events[..k][0] == events[0];
    } else {
      assert events[..k][0] == events[0];
      assert events[..k][1..] == events[1..][..k - 1];
      StreamRunStopsAtSignal(frequency, StreamStep(frequency, s, events[0].tick).next, events[1..], k - 1);
    }
  }

  /** No ticks delivering a result: the previous detections stay visible. */
  lemma {:induction false} StreamRunKeepsDetections(frequency: int, s: StreamState, events: seq<Event<StreamTick>>)
    requires forall k :: 0 <= k < |events| && events[k].Tick? && events[k].tick.read.Some? ==> !Delivers(events[k].tick.post)
    ensures StreamRun(frequency, s, events).next.obs.latestDetections == s.obs.latestDetections
    decreases |events|
  {
    if events != [] && events[0].Tick? {
      assert forall k :: 0 <= k < |events| - 1 ==> events[1..][k] == events[k + 1];
      StreamRunKeepsDetections(frequency, StreamStep(frequency, s, events[0].tick).next, events[1..]);
    }
  }

  /** Ticks never come closer than one frequency apart, whatever the per-iteration work. */
  lemma {:induction false} StreamTicksAtLeastFrequencyApart(frequency: int, s: StreamState, events: seq<Event<StreamTick>>)
    requires forall k :: 0 <= k < |events| ==> events[k].Tick?
    ensures StreamRun(frequency, s, events).next.t >= s.t + |events| * frequency
    decreases |events|
  {
    if events != [] {
      var next := StreamStep(frequency, s, events[0].tick).next;
      assert forall k :: 0 <= k < |events| - 1 ==> events[1..][k] == events[k + 1];
      StreamTicksAtLeastFrequencyApart(frequency, next, events[1..]);
      assert (|events| - 1) * frequency + frequency == |events| * frequency;
    }
  }

  /**
   * Drift correction: when every iteration's work fits within the frequency
   * (the clock at tick k is at most the k-th scheduled time) and every sleep
   * ends when asked, the n-th tick lands exactly n frequencies after the start.
   */
  lemma {:induction false} StreamTicksExact(frequency: int, s: StreamState, events: seq<Event<StreamTick>>)
    requires forall k :: 0 <= k < |events| ==> events[k].Tick? && events[k].tick.now <= s.t + (k + 1) * frequency
    requires forall k :: 0 <= k < |events| ==> events[k].Tick? && events[k].tick.overslept == 0
    ensures StreamRun(frequency, s, events).next.t == s.t + |events| * frequency
    decreases |events|
  {
    if events != [] {
      var next := StreamStep(frequency, s, events[0].tick).next;
      assert next.t == s.t + frequency;
      forall k | 0 <= k < |events| - 1
        ensures events[1..][k].Tick? && events[1..][k].tick.now <= next.t + (k + 1) * frequency
        ensures events[1..][k].tick.overslept == 0
      {
        assert events[1..][k] == events[k + 1];
        assert s.t + (k + 2) * frequency == next.t + (k + 1) * frequency;
      }
      StreamTicksExact(frequency, next, events[1..]);
      assert (|events| - 1) * frequency + frequency == |events| * frequency;
    }
  }

  /** One iteration of the `while self.run` loop of `CameraInstance.start`. */
  function CameraStep(frequency: int, obs: Observed, tick: CameraTick): (r: Step<Observed>)
    ensures r.next.latestFrame == obs.latestFrame
    ensures !(tick.capture.Captured? && tick.capture.status == 200 && tick.capture.decoded.Some?) ==> r == Step(obs, [Backoff])
    ensures tick.post.PostRaised? ==> r == Step(obs, [Backoff])
    ensures r.next.latestDetections != obs.latestDetections ==> Delivers(tick.post)
    ensures tick.capture.Captured? && tick.capture.status == 200 && tick.capture.decoded.Some? && tick.post.Response? ==>
      r.next.latestDetections == AfterPost(obs.latestDetections, tick.post) &&
      r.pauses == [TickSleep(frequency, tick.end - tick.start)]
  {
    match tick.capture
    case CaptureRaised => Step(obs, [Backoff])
    case Captured(status, decoded) =>
      if status != 200 || decoded.None? then Step(obs, [Backoff])
      else if tick.post.PostRaised? then Step(obs, [Backoff])
      else Step(obs.(latestDetections := AfterPost(obs.latestDetections, tick.post)), [TickSleep(frequency, tick.end - tick.start)])
  }

  /** Camera iterations until the first stop signal. */
  function CameraRun(frequency: int, obs: Observed, events: seq<Event<CameraTick>>): Step<Observed>
    decreases |events|
  {
    if events == [] || events[0].StopSignal? then Step(obs, [])
    else
      var first := CameraStep(frequency, obs, events[0].tick);
      var rest := CameraRun(frequency, first.next, events[1..]);
      Step(rest.next, first.pauses + rest.pauses)
  }

  /** Unfolding one camera iteration of a suffix. */
  lemma CameraRunTick(frequency: int, obs: Observed, events: seq<Event<CameraTick>>, i: nat)
    requires i < |events| && events[i].Tick?
    ensures var first := CameraStep(frequency, obs, events[i].tick);
      CameraRun(frequency, obs, events[i..]) == After(first.pauses, CameraRun(frequency, first.next, events[i + 1..]))
  {
    assert events[i..][1..] == events[i + 1..];
  }

  /** The camera loop never assigns `latest_frame`: it stays as constructed. */
  lemma {:induction false} CameraRunNeverSetsFrame(frequency: int, obs: Observed, events: seq<Event<CameraTick>>)
    ensures CameraRun(frequency, obs, events).next.latestFrame == obs.latestFrame
    decreases |events|
  {
    if events != [] && events[0].Tick? {
      CameraRunNeverSetsFrame(frequency, CameraStep(frequency, obs, events[0].tick).next, events[1..]);
    }
  }

  /** No camera tick delivering a result: the previous detections stay visible. */
  lemma {:induction false} CameraRunKeepsDetections(frequency: int, obs: Observed, events: seq<Event<CameraTick>>)
    requires forall k :: 0 <= k < |events| && events[k].Tick? ==> !Delivers(events[k].tick.post)
    ensures CameraRun(frequency, obs, events).next.latestDetections == obs.latestDetections
    decreases |events|
  {
    if events != [] && events[0].Tick? {
      assert forall k :: 0 <= k < |events| - 1 ==> events[1..][k] == events[k + 1];
      CameraRunKeepsDetections(frequency, CameraStep(frequency, obs, events[0].tick).next, events[1..]);
    }
  }

  /** An `Instance` object: the base class fields and the subclass fields. */
  class Instance {
    /** The constructor arguments; the attributes below are read from them. */
    const params: Params
    const id: Value := params.id
    const name: string := params.name
    const frequency: Value := params.frequency
    const lookoutEndpoint: Value := params.lookoutEndpoint
    const latitude: Value := params.latitude
    const longitude: Value := params.longitude
    const source: Source := params.source
    const instanceType: Kind := source.Kind()
    /** `self.image_file`, fixed by the type and the name. */
    const imageFile: string := FrameFile(instanceType, name)
    var run: bool
    var latestFrame: Option<Frame>
    var latestDetections: Value

    /** The object was built from these constructor arguments. */
    predicate Has(p: Params) {
      params == p
    }

    /** `YoutubeInstance(...)` or `CameraInstance(...)`, chosen by the source. */
    constructor (p: Params)
      ensures Has(p)
      ensures instanceType == p.source.Kind() && imageFile == FrameFile(instanceType, name)
      ensures run && latestFrame == None && latestDetections == Null
    {
      params := p;
      run := true;
      latestFrame := None;
      latestDetections := Null;
    }

    /** The two fields the loops publish to the dashboard. */
    function Observation(): Observed
      reads this`latestFrame, this`latestDetections
    {
      Observed(latestFrame, latestDetections)
    }

    /** `stop()`: clears the flag and nothing else. */
    method Stop()
      modifies this`run
      ensures !run
    {
      run := false;
    }

    /**
     * `YoutubeInstance.start`: returns at once when the stream cannot be
     * resolved or opened; otherwise iterates until a stop signal (or the end
     * of the supplied events), starting with `t = 0`.
     */
    method RunStream(open: StreamOpen, events: seq<Event<StreamTick>>) returns (pauses: seq<nat>)
      requires source.StreamSource? && frequency.Int?
      modifies this`run, this`latestFrame, this`latestDetections
      ensures open != Opened || !old(run) ==>
        pauses == [] && run == old(run) && Observation() == old(Observation())
      ensures open == Opened && old(run) ==>
        var r := StreamRun(frequency.i, StreamState(0, old(Observation())), events);
        Observation() == r.next.obs && pauses == r.pauses && (run <==> StopSignal !in events)
    {
      pauses := [];
      if open != Opened || !run {
        return;
      }
      ghost var s0 := StreamState(0, Observation());
      var t := 0;
      var i := 0;
      while run && i < |events|
        invariant 0 <= i <= |events|
        invariant StreamRun(frequency.i, s0, events) == After(pauses, StreamRun(frequency.i, StreamState(t, Observation()), events[i..]))
        invariant run ==> StopSignal !in events[..i]
        invariant !run ==> i < |events| && events[i] == StopSignal
        decreases |events| - i, run
      {
        match events[i]
        case StopSignal =>
          Stop();
        case Tick(tick) =>
          ghost var step := StreamStep(frequency.i, StreamState(t, Observation()), tick);
          ghost var rest := StreamRun(frequency.i, step.next, events[i + 1..]);
          ghost var before := pauses;
          StreamRunTick(frequency.i, StreamState(t, Observation()), events, i);
          AfterAfter(pauses, step.pauses, rest);
          var d := TickSleep(frequency.i, tick.now - t);
          t := tick.now + d + tick.overslept;
          if tick.read.None? {
            pauses := pauses + [d, Backoff];
          } else {
            latestFrame := tick.read;
            latestDetections := AfterPost(latestDetections, tick.post);
            pauses := pauses + [d];
          }
          assert StreamState(t, Observation()) == step.next && pauses == before + step.pauses;
          assert StreamRun(frequency.i, s0, events) == After(pauses, rest);
          assert events[..i + 1] == events[..i] + [events[i]];
          i := i + 1;
      }
      assert i == |events| ==> events[..i] == events;
    }

    /** `CameraInstance.start`: iterates until a stop signal (or the end of the supplied events). */
    method RunCamera(events: seq<Event<CameraTick>>) returns (pauses: seq<nat>)
      requires source.CameraSource? && frequency.Int?
      modifies this`run, this`latestDetections
      ensures !old(run) ==> pauses == [] && !run && Observation() == old(Observation())
      ensures old(run) ==>
        var r := CameraRun(frequency.i, old(Observation()), events);
        Observation() == r.next && pauses == r.pauses && (run <==> StopSignal !in events)
    {
      pauses := [];
      if !run {
        return;
      }
      ghost var o0 := Observation();
      var i := 0;
      while run && i < |events|
        invariant 0 <= i <= |events|
        invariant CameraRun(frequency.i, o0, events) == After(pauses, CameraRun(frequency.i, Observation(), events[i..]))
        invariant run ==> StopSignal !in events[..i]
        invariant !run ==> i < |events| && events[i] == StopSignal
        decreases |events| - i, run
      {
        match events[i]
        case StopSignal =>
          Stop();
        case Tick(tick) =>
          ghost var step := CameraStep(frequency.i, Observation(), tick);
          ghost var rest := CameraRun(frequency.i, step.next, events[i + 1..]);
          ghost var before := pauses;
          CameraRunTick(frequency.i, Observation(), events, i);
          AfterAfter(pauses, step.pauses, rest);
          if !(tick.capture.Captured? && tick.capture.status == 200 && tick.capture.decoded.Some?) {
            pauses := pauses + [Backoff];
          } else if tick.post.PostRaised? {
            pauses := pauses + [Backoff];
          } else {
            latestDetections := AfterPost(latestDetections, tick.post);
            pauses := pauses + [TickSleep(frequency.i, tick.end - tick.start)];
          }
          assert Observation() == step.next && pauses == before + step.pauses;
          assert CameraRun(frequency.i, o0, events) == After(pauses, rest);
          assert events[..i + 1] == events[..i] + [events[i]];
          i := i + 1;
      }
      assert i == |events| ==> events[..i] == events;
    }
  }
}
