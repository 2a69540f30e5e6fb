# Lookout desktop: instance orchestration, modelled in Dafny

This project models the core of a monitoring service. The service runs a fleet of
"instances". Each instance is a YouTube stream or a networked camera. A worker
polls it at a fixed frequency, posts each captured frame to a detection
endpoint and keeps the latest detection result. A Flask control plane keeps
the instance records in a settings file and starts and stops the workers.
A React dashboard lists the instances, edits them and places them on a map.

Modules:

- `Json` (json.dfy): the untyped JSON values both halves exchange.
  - `Get` is `dict.get` and a JavaScript property read.
  - `Truthy` is JavaScript truthiness.
  - `TextOrFalsy` holds for a value that is falsy or a string.
- `Text` (text.dfy): the string operations the source relies on:
  - decimal printing of a counter;
  - ASCII `lower()` and `toUpperCase()`;
  - removing spaces from a name;
  - scanners for the two YouTube-id regular expressions.
- `InstanceWorker` (instance.dfy): the worker of src/instance.py.
  - A class `Instance` holds the constructor arguments as constants and `run`,
    `latest_frame` and `latest_detections` as mutable fields.
  - `Stop` clears the flag.
  - `RunStream` and `RunCamera` are the two `while self.run` loops.
  - Each loop is proved equal to a fold (`StreamRun`, `CameraRun`) of a pure
    one-iteration function over a sequence of events. Drift correction,
    last-known-good detections and stop behaviour are proved about that fold.
- `Settings` (settings.dfy): `load_settings` and `create_instances` of
  src/settings.py. A loop creates one `Instance` per recognised item. It proves:
  - the loop's result against the specification `Created`;
  - the item count against `CountRecognised`.
- `App` (app.dfy): the control plane of app.py.
  - Pure functions give the record transformations of each handler: the name
    search, the unique name, the merge of an update, building a worker from a
    record, the boot-time restore and the shutdown pass.
  - A class `ControlPlane` holds three tables: the saved records, the worker
    objects (`instance_objects`) and the status entries (`instances_status`).
  - Its methods are the handlers. Each keeps the invariant `Consistent`:
    - every record is named;
    - a name has a worker exactly when it has a status entry;
    - every entry says running;
    - every worker is stored under its own name.
- `InstancesTable`, `InstanceModal`, `InstanceMap`
  (instances_table.dfy, instance_modal.dfy, instance_map.dfy): the dashboard
  helpers that compute what a row, the edit form and the map show.
  - The modal is a class holding the form state. It has field updates and a
    submit that builds the request.
  - The map is a class holding whether a Leaflet map exists, the markers on it
    and the marker table. One effect run creates the map when none exists,
    clears the remembered markers and re-adds one per shown instance. The
    cleanup the effect returns destroys the map.

Behaviour of the code that the contracts make explicit:

- `start_instance` reports "already running" from the status table, not from
  the worker table.
- A worker whose stream cannot be opened returns quietly from its thread. The
  start has already been reported as successful.
- `stop_instance` on a name without a worker fails (HTTP 500). This happens
  after the status entry was dropped and the record was marked stopped.
- Stopping does not wait for the loop to exit. It clears `run`, and the loop
  sees this the next time it reaches the top of the loop.
- The loops check `run` only at the top of each iteration, never around the
  sleep.
- The stream loop reads the clock again after its sleep. A sleep that ends
  late shifts every later tick by the same delay.
- The detection result stored is the whole parsed body of the response.
- Two shown instances with the same name each add a marker in one effect run,
  but the marker table keeps only the later one. The earlier marker stays on
  the map until the effect's cleanup destroys the whole map, which happens
  before the next run. So right after a change of the instance list, the map
  carries exactly the markers that run added.

Identifiers of the source appear in backquotes. Figures such as 60-second
frequencies, the 5-second back-off, './camera_images', './images' and '#16825d'
are the source's own constants.

## Model

| member | source | states |
|---|---|---|
| Text.NatToStringInjective | app.py:168 | distinct counters print as distinct decimal strings |
| Text.SuffixedInjective | app.py:168 | `f"{original}-{counter}"` gives distinct names for distinct counters |
| Text.NormalizeName | src/instance.py:45 | the lower-cased, space-stripped name has no upper-case letter and no space, and keeps every other character of the lower-cased name as often as it occurs there |
| Text.RemoveSpaces | src/instance.py:45 | `replace(' ', '')` removes every space and keeps every other character as often as it occurs |
| Text.NormalizeIdempotent | src/instance.py:45 | normalising a normalised name changes nothing |
| Text.SearchId | app.py:50-58 | `re.search` of the alternation: an id is returned iff some position matches a prefix; it is non-empty, free of `& \n ? #`, and the run after a prefix matched at the leftmost matching position |
| Text.SearchVId | app.py:52 | `watch?.*v=` search: an id is returned iff some position matches; it is the run after the last `v=` (on the same line) that follows the leftmost matching literal |
| Text.AltAt | app.py:51 | at one position the alternation matches iff some alternative is present followed by a non-empty id, and then ends after one of the alternatives |
| Text.AltAtFirst | app.py:51 | the alternatives are tried in order: the alternation ends after the first alternative that matches at the position, and fails iff none does |
| Text.VAt | app.py:52 | the greedy `.*` settles on the last `v=` of the line that is followed by an id |
| Text.Leftmost | app.py:56 | the search position is the first that matches; no earlier position matches |
| InstanceWorker.FrameFileOfNormalized | src/instance.py:45 | names that differ only in case and spaces share one frame file |
| InstanceWorker.FrameFile | src/instance.py:45 | the path is `./frames/`, the type, `_`, the normalised name and `.jpg` |
| InstanceWorker.FrameFileShared | src/instance.py:45 | two instances of one type share a frame file iff their names agree up to case and spaces |
| InstanceWorker.FrameFileKindsDiffer | src/instance.py:45 | a stream and a camera instance never share a frame file |
| InstanceWorker.TickSleep | src/instance.py:64-67 | the sleep `frequency - elapsed`, clipped at zero when negative (the swallowed ValueError), brings the tick to at least one frequency after the last |
| InstanceWorker.AfterPost | src/instance.py:97-111 | detections are replaced only by a 200 response whose body parses; otherwise the previous ones stay |
| InstanceWorker.StreamStep | src/instance.py:63-111 | one stream iteration: the next `t` is the requested wake time `max(now, t + frequency)` plus the oversleep the clock shows after the sleep; the sleeps taken (the 5 s back-off after a failed read), the frame and detections it publishes |
| InstanceWorker.StreamRunStopsAtSignal | src/instance.py:63 | nothing after a stop signal has an effect on the loop |
| InstanceWorker.StreamRunKeepsDetections | src/instance.py:97-111 | without a delivered result the previous detections stay visible (last-known-good) |
| InstanceWorker.StreamTicksAtLeastFrequencyApart | src/instance.py:63-68 | after n ticks the clock has advanced by at least n frequencies |
| InstanceWorker.StreamTicksExact | src/instance.py:63-68 | when each iteration's work fits in the frequency and no sleep ends late the n-th tick lands at exactly n frequencies |
| InstanceWorker.CameraStep | src/instance.py:138-190 | one camera iteration: back-off of 5 s on a failed, non-200 or undecodable capture and on a raised POST, else detections as delivered and the sleep `max(0, frequency - elapsed)` |
| InstanceWorker.CameraRunNeverSetsFrame | src/instance.py:134-190 | the camera loop never assigns `latest_frame` |
| InstanceWorker.CameraRunKeepsDetections | src/instance.py:168-186 | without a delivered result the previous detections stay visible |
| InstanceWorker.Instance.constructor | src/instance.py:19-29 | the object keeps its arguments, its type follows the source kind, the frame file follows type and name, `run` is set and nothing has been observed |
| InstanceWorker.Instance.Stop | src/instance.py:35-37 | `run` is cleared |
| InstanceWorker.Instance.RunStream | src/instance.py:48-117 | returns at once when the stream cannot be resolved or opened; otherwise the fields and the sleeps are those of the fold until the first stop signal, and `run` stays set iff no stop signal came |
| InstanceWorker.Instance.RunCamera | src/instance.py:134-190 | the fields and the sleeps are those of the camera fold until the first stop signal, and `run` stays set iff no stop signal came |
| Settings.LoadSettings | src/settings.py:4-15 | the parsed document, or `{"instances": []}` when the file is missing or not JSON |
| Settings.Items | src/settings.py:21 | the loop iterates over the list's items, nothing for a missing key or an empty dict, a string's characters one by one; a document that is not a dict, a non-empty dict and any other value raise |
| Settings.PlanItem | src/settings.py:21-50 | per item: skipped iff a dict of another type; an error for a non-dict item or a non-string name; otherwise the arguments are the item's `latitude`, `longitude` and (camera) `folder_path` when present and the defaults 60, 0.0 and './camera_images' when not |
| Settings.MadeAppend | src/settings.py:21-48 | instances are built item by item |
| Settings.MadeCount | src/settings.py:21-48 | one instance per recognised item, never more than the items |
| Settings.Made | src/settings.py:21-52 | the planned instances of the items in order, never more than the items |
| Settings.FallbackCreatesNothing | src/settings.py:10-15 | the fallback document and a document without `instances` create nothing |
| Settings.Created | src/settings.py:17-52 | the whole function: raises iff the list cannot be iterated or some item raises, and then builds at most one instance per item |
| Settings.BuildAll | src/settings.py:21-48 | the loop over the items: raises iff some item raises; otherwise new, pairwise distinct objects in their initial state, one per planned item, in order |
| Settings.CreateInstances | src/settings.py:17-52 | raises iff some item raises (or the list cannot be iterated); otherwise new objects, pairwise distinct and freshly allocated, in their initial state, one per planned item, in order |
| App.FirstIndex | app.py:248 | the first record with that name, or none iff no record has it |
| App.FindConfig | app.py:319 | the loop `next(...)` finds the first record of that name |
| App.Without | app.py:235 | the filtered list holds exactly the records of other names |
| App.WithoutAppend | app.py:235 | filtering distributes over concatenation |
| App.WithoutAbsent | app.py:235 | deleting an absent name leaves the records unchanged |
| App.StoppedAll | app.py:432-436 | no record is left running, keys and other fields are kept, non-running records are unchanged |
| App.Halted | app.py:434-435 | a record is not running afterwards; its keys and every field but `status` are kept, and a record that was not running is unchanged |
| App.StoppedAllIdempotent | app.py:432-436 | a second shutdown pass changes nothing |
| App.NewRecord | app.py:171-184 | the appended record has the ten request fields (with their defaults), the name and status "stopped" |
| App.RequestedName | app.py:162-163 | the requested name when the request has one, else `Instance-` followed by the decimal record count plus one |
| App.DefaultNamesDiffer | app.py:163 | default names for different record counts differ |
| App.FirstFreeNameUnique | app.py:165-169 | the chosen name is determined: the first of `name`, `name-1`, `name-2`, … not already present |
| App.TowerExamples | app.py:165-169 | "Tower" becomes "Tower-1" beside "Tower", and "Tower-2" beside both |
| App.SuffixBound | app.py:165-169 | the suffix loop stops after at most as many rounds as there are records |
| App.UniqueName | app.py:165-169 | the loop returns the first free name |
| App.Merge | app.py:198-216 | fails iff the record lacks `frequency` or `lookout_endpoint`; writes the common keys and the keys of the new type from the request, else from the record, else from the defaults; keeps every other key |
| App.MergeKeepsNameAndStatus | app.py:200-215 | an update never changes the name or the status |
| App.MergeTouchesOwnKind | app.py:209-215 | a YouTube update leaves the camera fields alone and a camera update leaves the URL alone |
| App.SpawnFrom | app.py:89-116 | unknown kind iff the type is neither; a raise iff a required key is missing or the name is not a string; otherwise the worker's arguments read from the record |
| App.NewRecordSpawns | app.py:171-184 | a record just added with a known type can always be started, under its own name |
| App.ExtractYoutubeId | app.py:49-59 | the first pattern's id when it matches anywhere, else exactly what the second pattern's search returns; none iff neither matches; the id is non-empty and free of `& \n ? #` |
| App.RestoredSettingsAt | app.py:84-133 | a running record that fails to build is saved as stopped and every other record is kept, so no record left running fails to build |
| App.Demoted | app.py:85-132 | a record keeps its keys and every field but `status`; it stays running only when it was running and builds; a running record that fails to build becomes stopped; any other record is unchanged |
| App.RestoredSettings | app.py:83-133 | record by record the demoted records, so every record stays named |
| App.RestoredNames | app.py:84-128 | a worker is restored under a name iff some record saved as running builds under that name |
| App.RegisterWorker | app.py:121-126 | registering a worker under its own name keeps the tables consistent |
| App.RestoringComplete | app.py:82-133 | after the restore pass: the saved records are the restored ones, and every restored name has a fresh running worker and a running status; other names are untouched |
| App.ControlPlane.constructor | app.py:32-33 | records as loaded, no workers and no status entries |
| App.ControlPlane.Add | app.py:156-190 | appends exactly one record, built from the request, under the first free name |
| App.ControlPlane.Update | app.py:192-220 | an unknown name changes nothing; otherwise the first record of that name is replaced by its merge, or the handler fails when the record lacks a required key |
| App.ControlPlane.Delete | app.py:222-239 | the worker is stopped and dropped, the status entry dropped, every record of that name removed |
| App.ControlPlane.Start | app.py:241-302 | already running iff a running status exists (400); not found (404); unknown type (400); failure (500) changes nothing; success registers a fresh running worker built from the record and marks it running |
| App.ControlPlane.Stop | app.py:304-331 | worker stopped and dropped, status dropped, first record marked stopped; success iff a worker existed, naming the frame file to remove |
| App.ControlPlane.Cleanup | app.py:422-436 | every worker is stopped and every running record saved as stopped |
| App.ControlPlane.RestoreRunningInstances | app.py:82-133 | the records become the restored records; a fresh running worker and status for each restorable name; everything else untouched |
| InstancesTable.InstanceType | src/components/InstancesTable.js:4-8 | "YouTube" iff the YouTube URL is truthy, "Camera" iff only the camera URL is, else "Unknown" |
| InstancesTable.InstanceLink | src/components/InstancesTable.js:10-14 | the link is always truthy |
| InstancesTable.LinkFollowsType | src/components/InstancesTable.js:4-14 | the link comes from the same field the type label chose, or is '#' |
| InstancesTable.TruncateUrl | src/components/InstancesTable.js:16-20 | 'Unknown' for a falsy URL, the URL when it fits, else exactly its first `maxLength` characters followed by `...` |
| InstancesTable.TruncateBound | src/components/InstancesTable.js:16-20 | with the default length nothing longer than 28 characters is shown |
| InstancesTable.TruncateIdempotent | src/components/InstancesTable.js:16-20 | truncating a shown text again changes nothing |
| InstancesTable.DisplayTextIsTruncatedLink | src/components/InstancesTable.js:22-30 | the text is the truncated link for a known type and 'Unknown' otherwise |
| InstancesTable.DisplayText | src/components/InstancesTable.js:22-30 | the truncated YouTube URL when it is truthy, 'Unknown' when neither URL is, and never more than 28 characters |
| InstancesTable.StatusText | src/components/InstancesTable.js:52-57 | the status, or "stopped" when missing or empty |
| InstancesTable.StatusLabel | src/components/InstancesTable.js:56-57 | the status with its first letter upper-cased and the rest as is |
| InstancesTable.StatusClass | src/components/InstancesTable.js:52-54 | `status-` followed by the status, or `status-stopped` when it is missing or empty |
| InstancesTable.StatusLabelDefault | src/components/InstancesTable.js:56-57 | a missing status reads "Stopped" |
| InstancesTable.IconForYoutubeOnly | src/components/InstancesTable.js:73-77 | the YouTube icon is shown iff the type is YouTube |
| InstancesTable.IconClass | src/components/InstancesTable.js:73-77 | one of the two icon classes |
| InstanceModal.BlankForm | src/components/InstanceModal.js:5-17 | the new-instance form holds every form field |
| InstanceModal.InferType | src/components/InstanceModal.js:26-30 | the type is "youtube" iff the URL is truthy, "camera" iff only the camera URL is, else "" |
| InstanceModal.EditForm | src/components/InstanceModal.js:24-40 | the edit form holds every form field and the inferred type |
| InstanceModal.EditFormNumbers | src/components/InstanceModal.js:36-39 | frequency, latitude and longitude are copied when truthy, else 60, 0 and 0 |
| InstanceModal.EditFormFolder | src/components/InstanceModal.js:35 | the folder is copied when truthy, else './camera_images' |
| InstanceModal.EditFormText | src/components/InstanceModal.js:25-37 | the name, the URL and the endpoint are copied when truthy, else "" |
| InstanceModal.EditFormCredentials | src/components/InstanceModal.js:32-34 | the camera URL and credentials are copied when truthy, else "" |
| InstanceModal.EmptyRecordEditsBlank | src/components/InstanceModal.js:21-56 | a record with no truthy field edits as the blank form |
| InstanceModal.ParseIntOfPrinted | src/components/InstanceModal.js:75 | `parseInt` reads back a printed natural number |
| InstanceModal.DigitsValueOfNatToString | src/components/InstanceModal.js:75 | the digit value of a printed number is that number |
| InstanceModal.JsNumber | src/components/InstanceModal.js:75-78 | a parsed number is an integer value when integral and a real otherwise, equal to the number |
| InstanceModal.ParsersKeepNumbers | src/components/InstanceModal.js:75-78 | `parseInt` and `parseFloat` leave an integer unchanged |
| InstanceModal.Request.Path | src/components/InstanceModal.js:91-97 | a create posts to `/api/instances`; an update puts to `/api/instances/` followed by the name |
| InstanceModal.PayloadKindsExclusive | src/components/InstanceModal.js:72-89 | a body carries only its own type's fields: 7 keys for YouTube, 10 for a camera, 6 otherwise |
| InstanceModal.PayloadHasTypeKeys | src/components/InstanceModal.js:72-89 | the body's keys are those of the form's type |
| InstanceModal.PayloadCommonText | src/components/InstanceModal.js:73-76 | name, type and endpoint are sent as in the form |
| InstanceModal.PayloadNumbers | src/components/InstanceModal.js:75-78 | the frequency is sent through `parseInt`, the coordinates through `parseFloat` |
| InstanceModal.PayloadTypeValues | src/components/InstanceModal.js:82-89 | the type's own fields are sent as in the form |
| InstanceModal.Modal.constructor | src/components/InstanceModal.js:5-57 | the form is the edit form of the instance, or blank without one |
| InstanceModal.Modal.HandleInputChange | src/components/InstanceModal.js:59-65 | exactly one form field changes, to the new value |
| InstanceModal.Modal.HandleSubmit | src/components/InstanceModal.js:67-97 | a PUT under the instance's name iff editing, else a POST; the body is the payload of the form |
| InstanceMap.ExtractVideoId | src/components/InstanceMap.js:53-59 | 'Unknown' for a falsy URL or no match; otherwise the id itself when at most 11 characters long, else exactly its first 11 characters |
| InstanceMap.ShortLinkRoundTrip | src/components/InstanceMap.js:53-59 | the id of `youtu.be/<id>` is `<id>` for every id of at most 11 allowed characters |
| InstanceMap.MarkerColour | src/components/InstanceMap.js:38 | green iff the status is "running", else red |
| InstanceMap.PinOf | src/components/InstanceMap.js:38-51 | a marker is placed at the instance's coordinates with its colour and type |
| InstanceMap.Pins | src/components/InstanceMap.js:35-98 | the marker table has a key iff some shown instance has that name |
| InstanceMap.PinsOfDistinct | src/components/InstanceMap.js:35-98 | with distinct names, every shown instance has its own marker and the table has one entry per shown instance |
| InstanceMap.PinsBound | src/components/InstanceMap.js:35-98 | the table never has more entries than shown instances, which never exceed the instances |
| InstanceMap.Map.ClearMarkers | src/components/InstanceMap.js:28-32 | the tabled markers leave the map and the table is emptied |
| InstanceMap.Map.AddMarkers | src/components/InstanceMap.js:35-99 | after a pass over the instances, each shown instance has added one fresh marker, and the table holds the last marker added per name |
| InstanceMap.Map.Rebuild | src/components/InstanceMap.js:9-99 | nothing happens without a container; otherwise a map exists afterwards, an existing map loses its tabled markers (a new map starts empty), one fresh marker per shown instance is added, and the table's keys are the shown names, each with its pin |
| InstanceMap.Map.constructor | src/components/InstanceMap.js:5-7 | no map yet, no markers and an empty table |
| InstanceMap.Map.Cleanup | src/components/InstanceMap.js:101-106 | the map is gone and with it every marker; the table is kept |
| InstanceMap.Map.Rerun | src/components/InstanceMap.js:9-107 | after the previous run's cleanup and a new run, the map carries exactly the markers added by that run, one per shown instance, and the table's keys are the shown names, each with its pin |

## Left out

- Threads: each worker runs inline over a supplied event sequence. A `stop()` from another thread is the event `StopSignal`, seen at the next `while self.run` check. Daemon threads, interleavings and `KeyboardInterrupt` are not modelled.
- Frame capture, `yt_dlp`, OpenCV, HTTP requests and `response.json()` are abstract outcomes of each iteration. Clock readings are integers supplied with each tick.
- Writing the frame file, the camera's `capture.jpg`, `cap.release()`, the MD5 `last_frame_hash` diagnostics and all logging are left out.
- The settings file: `ControlPlane.settings` is the list saved in it. Each handler's `load_settings`/`save_settings` pair is a field update.
- `load_settings` in app.py lets a JSON decode error escape; the model only covers readable files (src/settings.py's version, which catches it, is `Settings.LoadSettings`).
- `App.ControlPlane.Stop` returns the frame path it would remove; `os.path.exists` and `os.remove` are not modelled.
- The status entry's `start_time` is the parameter `now`. The thread object it holds is not modelled.
- `monitor_system` and psutil, `get_images`, `get_all_detections` and its hard-coded alert, `send_whatsapp_alert` (Twilio), the socket emits and connect handler, `render_template`, and the file-serving routes are left out.
- `App.ControlPlane.constructor` requires every saved record to be a dict with a `name` key (`Named`), which `Consistent` keeps; a settings file with a record lacking one is not modelled. On such a file the source raises `KeyError` whenever a handler's scan reaches that record: `add_instance` (app.py:162), `update_instance` (app.py:199), `delete_instance` (app.py:235) and `start_instance` (app.py:248, outside its `try`) answer HTTP 500, `stop_instance` (app.py:319, inside its `try`) answers 500, and `restore_running_instances` (app.py:86, outside its `try`) stops the server from starting (app.py:138) when that record is saved as running; `cleanup_instances` never reads a name.
- `App.ControlPlane.Add` requires a string `name` when the request has one. A non-string name would be stored unchanged by the source and is not modelled.
- Case mapping is ASCII only; string lengths count characters, not UTF-16 code units.
- JavaScript numbers: an integral number is an integer value, another number a real, and NaN is `null` (as `JSON.stringify` sends it).
- `InstanceModal.ParseInt` and `InstanceModal.ParseFloat` read an optional sign, decimal digits and (for floats) a fractional part after leading spaces. Their white space is the six ASCII characters; hexadecimal prefixes, exponents, `Infinity` and non-ASCII white space such as no-break space and the line separators are not modelled. An array value is `NaN` in the model, whereas JavaScript parses the array's text (`parseInt([5])` is 5).
- `InstanceModal.Request.Path` requires a string name for a PUT; JavaScript's string conversion of other values is not modelled.
- The display helpers require a truthy URL or status to be a string (`TextOrFalsy`); on other values the JavaScript would throw or coerce.
- `InstanceMap.Map` keys its marker table by the JSON name value. JavaScript's conversion of object keys to strings is not modelled.
- Leaflet itself: the tile layer, the initial view, icon HTML, the popup text (`toFixed`, `toUpperCase`) and the unused `videoId` the popup computes are left out.
- React state scheduling, the `loading` flag, `onSave`/`onClose`, and the axios error alert are left out. `HandleSubmit` returns the request it would send.
- `InstanceWorker.Instance.RunStream` requires an integer `frequency`. The source sleeps on any number, so a real frequency is not modelled, and a non-numeric one raises `TypeError` in the thread.
- `InstanceWorker.Instance.RunCamera` requires an integer `frequency`, for the same reason as `RunStream`.
- `InstanceMap.ShortLinkRoundTrip` is the only concrete URL form proved; watch and embed URLs are covered by the general contracts of `ExtractVideoId` and `ExtractYoutubeId` only.
- The record defaults differ between the two halves ('./images' in `add_instance` and `update_instance`, './camera_images' in src/settings.py and the modal); each part of the model uses its own source's constant.
