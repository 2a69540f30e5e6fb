/**
 * src/components/InstanceModal.js: the add/edit form. The form state is a
 * dict of field values; `handleSubmit` turns it into the request body the
 * server receives. JavaScript numbers are `Int` when integral (the form's
 * `0.0` is the number 0, and `JSON.stringify` prints it as `0`) and `Real`
 * otherwise; `NaN` is `Null`, which is how `JSON.stringify` sends it.
 */
module InstanceModal {
  import opened Json
  import opened Text

  // ---------------------------------------------------------------------
  // The form state

  /** The fields the form declares. */
  const FormFields: seq<string> := ["name", "instance_type", "youtube_url", "camera_url", "camera_username",
                                    "camera_password", "folder_path", "frequency", "lookout_endpoint", "latitude", "longitude"]

  /** The form of the add dialog. */
  function BlankForm(): (f: Dict)
    ensures forall k :: k in FormFields ==> k in f
  {
    map["name" := Str(""), "instance_type" := Str(""), "youtube_url" := Str(""), "camera_url" := Str(""),
        "camera_username" := Str(""), "camera_password" := Str(""), "folder_path" := Str("./camera_images"),
        "frequency" := Int(60), "lookout_endpoint" := Str(""), "latitude" := Int(0), "longitude" := Int(0)]
  }

  /** The type the edit dialog infers from a record: its youtube URL first, then its camera URL. */
  function InferType(instance: Dict): (r: Value)
    ensures r == Str("youtube") <==> Truthy(Get(instance, "youtube_url", Null))
    ensures r == Str("camera") <==> !Truthy(Get(instance, "youtube_url", Null)) && Truthy(Get(instance, "camera_url", Null))
    ensures r == Str("") <==> !Truthy(Get(instance, "youtube_url", Null)) && !Truthy(Get(instance, "camera_url", Null))
  {
    if Truthy(Get(instance, "youtube_url", Null)) then Str("youtube")
    else if Truthy(Get(instance, "camera_url", Null)) then Str("camera")
    else Str("")
  }

  /** `instance.f || fallback`. */
  function FieldOr(instance: Dict, f: string, fallback: Value): (r: Value)
    ensures Truthy(Get(instance, f, Null)) ==> r == instance[f]
    ensures !Truthy(Get(instance, f, Null)) ==> r == fallback
  {
    Or(Get(instance, f, Null), fallback)
  }

  /** The form of the edit dialog: each field from the record, a falsy one replaced by its fallback. */
  function EditForm(instance: Dict): (f: Dict)
    ensures forall k :: k in FormFields ==> k in f
    ensures f["instance_type"] == InferType(instance)
  {
    map["name" := FieldOr(instance, "name", Str("")),
        "instance_type" := InferType(instance),
        "youtube_url" := FieldOr(instance, "youtube_url", Str("")),
        "camera_url" := FieldOr(instance, "camera_url", Str("")),
        "camera_username" := FieldOr(instance, "camera_username", Str("")),
        "camera_password" := FieldOr(instance, "camera_password", Str("")),
        "folder_path" := FieldOr(instance, "folder_path", Str("./camera_images")),
        "frequency" := FieldOr(instance, "frequency", Int(60)),
        "lookout_endpoint" := FieldOr(instance, "lookout_endpoint", Str("")),
        "latitude" := FieldOr(instance, "latitude", Int(0)),
        "longitude" := FieldOr(instance, "longitude", Int(0))]
  }

  /** A falsy number field opens as its default: frequency 60, latitude and longitude 0. */
  lemma EditFormNumbers(instance: Dict)
    ensures Truthy(Get(instance, "frequency", Null)) ==> EditForm(instance)["frequency"] == instance["frequency"]
    ensures !Truthy(Get(instance, "frequency", Null)) ==> EditForm(instance)["frequency"] == Int(60)
    ensures Truthy(Get(instance, "latitude", Null)) ==> EditForm(instance)["latitude"] == instance["latitude"]
    ensures !Truthy(Get(instance, "latitude", Null)) ==> EditForm(instance)["latitude"] == Int(0)
    ensures Truthy(Get(instance, "longitude", Null)) ==> EditForm(instance)["longitude"] == instance["longitude"]
    ensures !Truthy(Get(instance, "longitude", Null)) ==> EditForm(instance)["longitude"] == Int(0)
  {
  }

  /** A falsy folder opens as `./camera_images`. */
  lemma EditFormFolder(instance: Dict)
    ensures Truthy(Get(instance, "folder_path", Null)) ==> EditForm(instance)["folder_path"] == instance["folder_path"]
    ensures !Truthy(Get(instance, "folder_path", Null)) ==> EditForm(instance)["folder_path"] == Str("./camera_images")
  {
  }

  /** A falsy text field opens empty. */
  lemma EditFormText(instance: Dict)
    ensures Truthy(Get(instance, "name", Null)) ==> EditForm(instance)["name"] == instance["name"]
    ensures !Truthy(Get(instance, "name", Null)) ==> EditForm(instance)["name"] == Str("")
    ensures Truthy(Get(instance, "youtube_url", Null)) ==> EditForm(instance)["youtube_url"] == instance["youtube_url"]
    ensures !Truthy(Get(instance, "youtube_url", Null)) ==> EditForm(instance)["youtube_url"] == Str("")
    ensures Truthy(Get(instance, "lookout_endpoint", Null)) ==> EditForm(instance)["lookout_endpoint"] == instance["lookout_endpoint"]
    ensures !Truthy(Get(instance, "lookout_endpoint", Null)) ==> EditForm(instance)["lookout_endpoint"] == Str("")
  {
  }

  /** A falsy camera credential opens empty. */
  lemma EditFormCredentials(instance: Dict)
    ensures Truthy(Get(instance, "camera_url", Null)) ==> EditForm(instance)["camera_url"] == instance["camera_url"]
    ensures !Truthy(Get(instance, "camera_url", Null)) ==> EditForm(instance)["camera_url"] == Str("")
    ensures Truthy(Get(instance, "camera_username", Null)) ==> EditForm(instance)["camera_username"] == instance["camera_username"]
    ensures !Truthy(Get(instance, "camera_username", Null)) ==> EditForm(instance)["camera_username"] == Str("")
    ensures Truthy(Get(instance, "camera_password", Null)) ==> EditForm(instance)["camera_password"] == instance["camera_password"]
    ensures !Truthy(Get(instance, "camera_password", Null)) ==> EditForm(instance)["camera_password"] == Str("")
  {
  }

  /** A record with no truthy field edits into the blank form. */
  lemma EmptyRecordEditsBlank(instance: Dict)
    requires forall k :: k in instance ==> !Truthy(instance[k])
    ensures EditForm(instance) == BlankForm()
  {
    assert InferType(instance) == Str("");
  }

  /** What the dialog shows when it opens (the effect on `instance`). */
  function InitialForm(instance: Option<Dict>): (f: Dict)
    ensures forall k :: k in FormFields ==> k in f
  {
    match instance
    case Some(rec) => EditForm(rec)
    case None => BlankForm()
  }

  // ---------------------------------------------------------------------
  // parseInt and parseFloat

  /** ASCII white space as `parseInt` and `parseFloat` skip it: space, tab, line feed, vertical tab, form feed, carriage return. */
  predicate Space(c: char) {
    c == ' ' || c == '\t' || c == '\n' || c == '\r' || c as int == 11 || c as int == 12
  }

  /** The first position from `p` on that is not white space. */
  function SkipSpace(s: string, p: nat): (q: nat)
    requires p <= |s|
    ensures p <= q <= |s|
    ensures q < |s| ==> !Space(s[q])
    decreases |s| - p
  {
    if p < |s| && Space(s[p]) then SkipSpace(s, p + 1) else p
  }

  /** The number of consecutive decimal digits from `p` on. */
  function DigitRun(s: string, p: nat): (n: nat)
    requires p <= |s|
    ensures p + n <= |s|
    ensures forall i :: p <= i < p + n ==> IsDigit(s[i])
    ensures p + n < |s| ==> !IsDigit(s[p + n])
    decreases |s| - p
  {
    if p < |s| && IsDigit(s[p]) then 1 + DigitRun(s, p + 1) else 0
  }

  /** The value of a string of decimal digits. */
  function DigitsValue(d: string): nat
    requires forall i :: 0 <= i < |d| ==> IsDigit(d[i])
  {
    if d == [] then 0
    else
      assert IsDigit(d[|d| - 1]);
      10 * DigitsValue(d[..|d| - 1]) + (d[|d| - 1] as int - '0' as int)
  }

  /** Reading back a printed number gives the number. */
  lemma {:induction false} DigitsValueOfNatToString(n: nat)
    ensures DigitsValue(NatToString(n)) == n
    decreases n
  {
    var s := NatToString(n);
    if n >= 10 {
      assert s[..|s| - 1] == NatToString(n / 10);
      DigitsValueOfNatToString(n / 10);
    }
  }

  /** Where the digits of a number written from `p` start, and whether it is negative. */
  function SignAt(s: string, p: nat): (r: (nat, bool))
    requires p <= |s|
    ensures p <= r.0 <= |s|
  {
    if p < |s| && (s[p] == '-' || s[p] == '+') then (p + 1, s[p] == '-') else (p, false)
  }

  /** `parseInt` of a string: leading white space, an optional sign, then decimal digits; none is `NaN`. */
  function ParseIntText(s: string): (r: Value)
    ensures r.Null? || r.Int?
  {
    var (start, negative) := SignAt(s, SkipSpace(s, 0));
    var n := DigitRun(s, start);
    if n == 0 then Null
    else
      var v: int := DigitsValue(s[start..start + n]);
      Int(if negative then -v else v)
  }

  /** `parseInt` reads back what `String()` prints for a non-negative integer. */
  lemma ParseIntOfPrinted(n: nat)
    ensures ParseIntText(NatToString(n)) == Int(n)
  {
    var s := NatToString(n);
    assert SkipSpace(s, 0) == 0;
    assert SignAt(s, 0) == (0, false);
    assert DigitRun(s, 0) == |s| by {
      DigitRunAll(s, 0);
    }
    assert s[0..|s|] == s;
    DigitsValueOfNatToString(n);
  }

  /** A run of digits to the end of the text is counted in full. */
  lemma {:induction false} DigitRunAll(s: string, p: nat)
    requires p <= |s| && forall i :: p <= i < |s| ==> IsDigit(s[i])
    ensures DigitRun(s, p) == |s| - p
    decreases |s| - p
  {
    if p < |s| {
      DigitRunAll(s, p + 1);
    }
  }

  /** A real truncated toward zero, as printing and re-reading an integer part does. */
  function Truncate(r: real): int {
    if r >= 0.0 then r.Floor else -((-r).Floor)
  }

  /** The JavaScript number `r`: an `Int` when integral. */
  function JsNumber(r: real): (v: Value)
    ensures v.Int? || v.Real?
    ensures v.Int? ==> v.i as real == r
    ensures v.Real? ==> v.r == r
  {
    if r.Floor as real == r then Int(r.Floor) else Real(r)
  }

  /** `parseInt(v)` on the values a form field can hold; anything else is `NaN`. */
  function ParseInt(v: Value): (r: Value)
    ensures r.Null? || r.Int?
  {
    match v
    case Int(i) => Int(i)
    case Real(x) => Int(Truncate(x))
    case Str(s) => ParseIntText(s)
    case _ => Null
  }

  function Pow10(k: nat): (p: nat)
    ensures p >= 1
  {
    if k == 0 then 1 else 10 * Pow10(k - 1)
  }

  /**
   * `parseFloat` of a string: leading white space, an optional sign, digits,
   * then optionally `.` and more digits; neither digits before nor after the
   * point is `NaN`.
   */
  function ParseFloatText(s: string): (r: Value)
    ensures r.Null? || r.Int? || r.Real?
  {
    var (start, negative) := SignAt(s, SkipSpace(s, 0));
    var n := DigitRun(s, start);
    var point := start + n;
    var m := if point < |s| && s[point] == '.' then DigitRun(s, point + 1) else 0;
    if n == 0 && m == 0 then Null
    else
      var whole := DigitsValue(s[start..point]);
      var fraction := if m == 0 then 0 else DigitsValue(s[point + 1..point + 1 + m]);
      var magnitude := whole as real + fraction as real / Pow10(m) as real;
      JsNumber(if negative then -magnitude else magnitude)
  }

  /** `parseFloat(v)` on the values a form field can hold; anything else is `NaN`. */
  function ParseFloat(v: Value): (r: Value)
    ensures r.Null? || r.Int? || r.Real?
  {
    match v
    case Int(i) => Int(i)
    case Real(x) => JsNumber(x)
    case Str(s) => ParseFloatText(s)
    case _ => Null
  }

  /** A number already in the form goes through either parser unchanged. */
  lemma ParsersKeepNumbers(i: int)
    ensures ParseInt(Int(i)) == Int(i) && ParseFloat(Int(i)) == Int(i)
    ensures ParseInt(Str(NatToString(if i >= 0 then i else 0))) == Int(if i >= 0 then i else 0)
  {
    ParseIntOfPrinted(if i >= 0 then i else 0);
  }

  // ---------------------------------------------------------------------
  // The request handleSubmit sends

  /** A POST to `/api/instances`, or a PUT to `/api/instances/` followed by the edited record's name. */
  datatype Request = Post(body: Dict) | Put(name: Value, body: Dict) {
    /** The URL; a PUT's name is a string on every record the server writes. */
    function Path(): (p: string)
      requires Post? || name.Str?
      ensures |p| >= 14 && p[..14] == "/api/instances"
      ensures Post? <==> |p| == 14
      ensures Put? ==> p[14] == '/' && p[15..] == name.s
    {
      if Post? then "/api/instances" else "/api/instances/" + name.s
    }
  }

  /**
   * The keys of the body for each form type: the six common ones, plus
   * `youtube_url` for a youtube form or the four camera fields for a camera
   * form; any other type adds nothing.
   */
  function PayloadKeys(t: Value): set<string> {
    if t == Str("youtube") then
      {"name", "instance_type", "frequency", "lookout_endpoint", "latitude", "longitude", "youtube_url"}
    else if t == Str("camera") then
      {"name", "instance_type", "frequency", "lookout_endpoint", "latitude", "longitude",
       "camera_url", "camera_username", "camera_password", "folder_path"}
    else
      {"name", "instance_type", "frequency", "lookout_endpoint", "latitude", "longitude"}
  }

  /** No body carries the fields of the other kind. */
  lemma PayloadKindsExclusive(t: Value)
    ensures t != Str("youtube") ==> "youtube_url" !in PayloadKeys(t)
    ensures t != Str("camera") ==>
      "camera_url" !in PayloadKeys(t) && "camera_username" !in PayloadKeys(t) &&
      "camera_password" !in PayloadKeys(t) && "folder_path" !in PayloadKeys(t)
    ensures |PayloadKeys(t)| == if t == Str("youtube") then 7 else if t == Str("camera") then 10 else 6
  {
  }

  /** The six fields every body starts from, the number fields parsed. */
  function CommonBody(form: Dict): Dict {
    map["name" := Get(form, "name", Null), "instance_type" := Get(form, "instance_type", Null),
        "frequency" := ParseInt(Get(form, "frequency", Null)),
        "lookout_endpoint" := Get(form, "lookout_endpoint", Null),
        "latitude" := ParseFloat(Get(form, "latitude", Null)),
        "longitude" := ParseFloat(Get(form, "longitude", Null))]
  }

  /** The body `handleSubmit` sends for a form: the common fields, then the type's own. */
  function Payload(form: Dict): Dict {
    var kind := Get(form, "instance_type", Null);
    if kind == Str("youtube") then
      CommonBody(form)["youtube_url" := Get(form, "youtube_url", Null)]
    else if kind == Str("camera") then
      CommonBody(form)["camera_url" := Get(form, "camera_url", Null)]
                      ["camera_username" := Get(form, "camera_username", Null)]
                      ["camera_password" := Get(form, "camera_password", Null)]
                      ["folder_path" := Get(form, "folder_path", Null)]
    else
      CommonBody(form)
  }

  /** The body has exactly the keys of its type. */
  lemma PayloadHasTypeKeys(form: Dict)
    ensures Payload(form).Keys == PayloadKeys(Get(form, "instance_type", Null))
  {
  }

  /** The common text fields are sent as typed. */
  lemma PayloadCommonText(form: Dict)
    ensures "name" in Payload(form) && Payload(form)["name"] == Get(form, "name", Null)
    ensures "instance_type" in Payload(form) && Payload(form)["instance_type"] == Get(form, "instance_type", Null)
    ensures "lookout_endpoint" in Payload(form) && Payload(form)["lookout_endpoint"] == Get(form, "lookout_endpoint", Null)
  {
  }

  /** The number fields are sent parsed: `parseInt` for the frequency, `parseFloat` for the coordinates. */
  lemma PayloadNumbers(form: Dict)
    ensures "frequency" in Payload(form) && Payload(form)["frequency"] == ParseInt(Get(form, "frequency", Null))
    ensures "latitude" in Payload(form) && Payload(form)["latitude"] == ParseFloat(Get(form, "latitude", Null))
    ensures "longitude" in Payload(form) && Payload(form)["longitude"] == ParseFloat(Get(form, "longitude", Null))
  {
  }

  /** The fields of the chosen type are sent as typed. */
  lemma PayloadTypeValues(form: Dict)
    ensures Get(form, "instance_type", Null) == Str("youtube") ==>
      "youtube_url" in Payload(form) && Payload(form)["youtube_url"] == Get(form, "youtube_url", Null)
    ensures Get(form, "instance_type", Null) == Str("camera") ==>
      "camera_url" in Payload(form) && Payload(form)["camera_url"] == Get(form, "camera_url", Null) &&
      Payload(form)["camera_username"] == Get(form, "camera_username", Null) &&
      Payload(form)["camera_password"] == Get(form, "camera_password", Null) &&
      Payload(form)["folder_path"] == Get(form, "folder_path", Null)
  {
  }

  /** The add/edit dialog: the record being edited, if any, and the form state. */
  class Modal {
    const instance: Option<Dict>
    var formData: Dict

    /** Every declared field has a value. */
    predicate Valid()
      reads this
    {
      forall k :: k in FormFields ==> k in formData
    }

    /** Opening the dialog: the form is filled from the record, or blank. */
    constructor (instance: Option<Dict>)
      ensures Valid()
      ensures this.instance == instance && formData == InitialForm(instance)
    {
      this.instance := instance;
      formData := InitialForm(instance);
    }

    /** `handleInputChange`: the named field takes the new value; every other field keeps its value. */
    method HandleInputChange(name: string, value: Value)
      requires Valid()
      modifies this`formData
      ensures Valid()
      ensures formData == old(formData)[name := value]
    {
      formData := formData[name := value];
    }

    /**
     * `handleSubmit`: the request sent. The body has the common fields, the
     * number fields parsed, plus the fields of the chosen type; a type that
     * is neither adds nothing.
     */
    method HandleSubmit() returns (req: Request)
      ensures req.Put? <==> instance.Some?
      ensures instance.Some? ==> req.name == Get(instance.value, "name", Null)
      ensures req.body == Payload(formData)
    {
      var data := CommonBody(formData);
      var kind := Get(formData, "instance_type", Null);
      if kind == Str("youtube") {
        data := data["youtube_url" := Get(formData, "youtube_url", Null)];
      } else if kind == Str("camera") {
        data := data["camera_url" := Get(formData, "camera_url", Null)];
        data := data["camera_username" := Get(formData, "camera_username", Null)];
        data := data["camera_password" := Get(formData, "camera_password", Null)];
        data := data["folder_path" := Get(formData, "folder_path", Null)];
      }
      if instance.Some? {
        req := Put(Get(instance.value, "name", Null), data);
      } else {
        req := Post(data);
      }
    }
  }
}
