/**
 * src/components/InstancesTable.js: the text of one table row, computed
 * from the instance record the dashboard received. A record field read as
 * `instance.x` is `Get(instance, "x", Null)` (a missing field is
 * `undefined`, which is falsy like `null`).
 */
module InstancesTable {
  import opened Json
  import opened Text

  /** The three labels `getInstanceType` returns. */
  datatype TypeLabel = YouTube | Camera | Unknown {
    function Text(): string {
      match this
      case YouTube => "YouTube"
      case Camera => "Camera"
      case Unknown => "Unknown"
    }
  }

  function YoutubeUrl(instance: Dict): Value {
    Get(instance, "youtube_url", Null)
  }

  function CameraUrl(instance: Dict): Value {
    Get(instance, "camera_url", Null)
  }

  /** `getInstanceType`: a truthy `youtube_url` wins over a truthy `camera_url`. */
  function InstanceType(instance: Dict): (r: TypeLabel)
    ensures r == YouTube <==> Truthy(YoutubeUrl(instance))
    ensures r == Camera <==> !Truthy(YoutubeUrl(instance)) && Truthy(CameraUrl(instance))
    ensures r == Unknown <==> !Truthy(YoutubeUrl(instance)) && !Truthy(CameraUrl(instance))
  {
    if Truthy(YoutubeUrl(instance)) then YouTube
    else if Truthy(CameraUrl(instance)) then Camera
    else Unknown
  }

  /** `getInstanceLink`: the URL of the same precedence, or `'#'`. */
  function InstanceLink(instance: Dict): (r: Value)
    ensures Truthy(r)
  {
    if Truthy(YoutubeUrl(instance)) then YoutubeUrl(instance)
    else if Truthy(CameraUrl(instance)) then CameraUrl(instance)
    else Str("#")
  }

  /** The link and the type label choose the same field. */
  lemma LinkFollowsType(instance: Dict)
    ensures InstanceType(instance) == YouTube ==> InstanceLink(instance) == YoutubeUrl(instance)
    ensures InstanceType(instance) == Camera ==> InstanceLink(instance) == CameraUrl(instance)
    ensures InstanceType(instance) == Unknown ==> InstanceLink(instance) == Str("#")
  {
  }

  /** The default `maxLength` of `truncateUrl`. */
  const DefaultMaxLength: nat := 25

  /**
   * `truncateUrl`: `'Unknown'` for a falsy value, the URL itself when it
   * fits, else its first `maxLength` characters and an ellipsis. A truthy
   * URL must be a string (`substring` on another value raises).
   */
  function TruncateUrl(url: Value, maxLength: nat): (r: string)
    requires TextOrFalsy(url)
    ensures !Truthy(url) ==> r == "Unknown"
    ensures Truthy(url) ==> |r| <= maxLength + 3
    ensures Truthy(url) && |url.s| <= maxLength ==> r == url.s
    ensures Truthy(url) && |url.s| > maxLength ==> r == url.s[..maxLength] + "..."
  {
    if !Truthy(url) then "Unknown"
    else if |url.s| <= maxLength then url.s
    else url.s[..maxLength] + "..."
  }

  /** With the default length nothing longer than 28 characters is shown, whatever the input. */
  lemma TruncateBound(url: Value)
    requires TextOrFalsy(url)
    ensures |TruncateUrl(url, DefaultMaxLength)| <= DefaultMaxLength + 3
  {
  }

  /** Truncating a shown text again changes nothing (once `'Unknown'` fits). */
  lemma TruncateIdempotent(url: Value, maxLength: nat)
    requires TextOrFalsy(url) && maxLength >= 7
    ensures TruncateUrl(Str(TruncateUrl(url, maxLength)), maxLength) == TruncateUrl(url, maxLength)
  {
    var r := TruncateUrl(url, maxLength);
    if Truthy(url) && |url.s| > maxLength {
      assert r[..maxLength] == url.s[..maxLength];
      assert r[..maxLength] + "..." == r;
    }
  }

  /** The URL fields `getDisplayText` may hand to `truncateUrl` are strings when truthy. */
  predicate DisplayableUrls(instance: Dict) {
    TextOrFalsy(YoutubeUrl(instance)) && (!Truthy(YoutubeUrl(instance)) ==> TextOrFalsy(CameraUrl(instance)))
  }

  /** `getDisplayText`. */
  function DisplayText(instance: Dict): (r: string)
    requires DisplayableUrls(instance)
    ensures |r| <= DefaultMaxLength + 3
    ensures Truthy(YoutubeUrl(instance)) ==> r == TruncateUrl(YoutubeUrl(instance), DefaultMaxLength)
    ensures !Truthy(YoutubeUrl(instance)) && !Truthy(CameraUrl(instance)) ==> r == "Unknown"
  {
    if Truthy(YoutubeUrl(instance)) then TruncateUrl(YoutubeUrl(instance), DefaultMaxLength)
    else if Truthy(CameraUrl(instance)) then TruncateUrl(CameraUrl(instance), DefaultMaxLength)
    else "Unknown"
  }

  /**
   * The displayed text is the truncated link when the type is known, and
   * `'Unknown'` (not the truncated `'#'`) when it is not.
   */
  lemma DisplayTextIsTruncatedLink(instance: Dict)
    requires DisplayableUrls(instance)
    ensures InstanceType(instance) != Unknown ==>
      TextOrFalsy(InstanceLink(instance)) && DisplayText(instance) == TruncateUrl(InstanceLink(instance), DefaultMaxLength)
    ensures InstanceType(instance) == Unknown ==> DisplayText(instance) == "Unknown"
    ensures |DisplayText(instance)| <= DefaultMaxLength + 3
  {
  }

  /** The status shown: `instance.status || 'stopped'`. A truthy status must be a string. */
  function StatusText(instance: Dict): (r: string)
    requires TextOrFalsy(Get(instance, "status", Null))
    ensures |r| > 0
    ensures !Truthy(Get(instance, "status", Null)) ==> r == "stopped"
    ensures Truthy(Get(instance, "status", Null)) ==> r == Get(instance, "status", Null).s
  {
    var status := Get(instance, "status", Null);
    if Truthy(status) then status.s else "stopped"
  }

  /** The badge class, `status-` followed by the status shown. */
  function StatusClass(instance: Dict): (r: string)
    requires TextOrFalsy(Get(instance, "status", Null))
    ensures |r| > 7 && r[..7] == "status-"
    ensures !Truthy(Get(instance, "status", Null)) ==> r == "status-stopped"
    ensures Truthy(Get(instance, "status", Null)) ==> r[7..] == Get(instance, "status", Null).s
  {
    "status-" + StatusText(instance)
  }

  /** The badge text: the status with its first character upper-cased and the rest as is. */
  function StatusLabel(instance: Dict): (r: string)
    requires TextOrFalsy(Get(instance, "status", Null))
    ensures |r| == |StatusText(instance)|
    ensures r[0] == UpperChar(StatusText(instance)[0])
    ensures r[1..] == StatusText(instance)[1..]
  {
    var text := StatusText(instance);
    [UpperChar(text[0])] + text[1..]
  }

  /** A missing or empty status reads `Stopped`. */
  lemma StatusLabelDefault(instance: Dict)
    requires !Truthy(Get(instance, "status", Null))
    ensures StatusLabel(instance) == "Stopped"
  {
    assert StatusText(instance) == "stopped";
  }

  /** The link icon: a YouTube icon exactly when the lower-cased type label is `youtube`. */
  function IconClass(instance: Dict): (r: string)
    ensures r == "fab fa-youtube" || r == "fas fa-video"
  {
    if Lower(InstanceType(instance).Text()) == "youtube" then "fab fa-youtube" else "fas fa-video"
  }

  /** Only the YouTube label lower-cases to `youtube`. */
  lemma IconForYoutubeOnly(instance: Dict)
    ensures IconClass(instance) == "fab fa-youtube" <==> InstanceType(instance) == YouTube
  {
    var kind := InstanceType(instance);
    assert Lower("YouTube") == "youtube";
    if kind != YouTube {
      assert |Lower(kind.Text())| != |"youtube"| || Lower(kind.Text())[0] != 'y';
    }
  }
}
