/**
 * A model of the sizing and refresh logic of the ProfilePictureView widget:
 * which image dimensions it asks for, when it asks again, what it renders,
 * and how its state survives a save/restore round trip.
 *
 * The pure part (preset resolution, measurement substitution, the query
 * resolver, the refresh decision, the saved-state bundle) is written as
 * functions; the widget itself is a class whose methods update its fields
 * in place and are specified against those functions.
 */
module ProfilePictureView {

  datatype Option<T> = None | Some(value: T)

  // ---------------------------------------------------------------------
  // Constants
  // ---------------------------------------------------------------------

  /** The four accepted preset size types. */
  const CUSTOM: int := -1
  const SMALL: int := -2
  const NORMAL: int := -3
  const LARGE: int := -4

  /** Smallest laid-out size (in pixels) for which a query can be computed. */
  const MIN_SIZE: int := 1

  /**
   * The "let the server choose" dimension of an image request. Its value is
   * defined outside this model; all that matters is that it lies below
   * MIN_SIZE and so can never be mistaken for a real pixel size.
   */
  const UNSPECIFIED_DIMENSION: int := 0

  predicate IsPresetSize(sizeType: int) {
    sizeType == CUSTOM || sizeType == SMALL || sizeType == NORMAL || sizeType == LARGE
  }

  /** True for a missing or empty user id. */
  predicate IsNullOrEmpty(s: Option<string>) {
    s.None? || s.value == ""
  }

  function Min(a: int, b: int): int {
    if a <= b then a else b
  }

  // ---------------------------------------------------------------------
  // Preset sizes in pixels
  // ---------------------------------------------------------------------

  /** Pixel sizes of the SMALL, NORMAL and LARGE presets, fixed at construction. */
  datatype PresetPixels = PresetPixels(small: int, normal: int, large: int) {
    predicate Valid() {
      small >= MIN_SIZE && normal >= MIN_SIZE && large >= MIN_SIZE
    }
  }

  /**
   * The square pixel size a preset stands for. CUSTOM stands for no size
   * unless the caller forces a preset, in which case it falls back to NORMAL;
   * an unrecognised size type stands for no size.
   */
  function PresetSizeInPixels(sizeType: int, forcePreset: bool, px: PresetPixels): (r: int)
    requires px.Valid()
    ensures r == UNSPECIFIED_DIMENSION || r >= MIN_SIZE
    ensures r == UNSPECIFIED_DIMENSION <==> !IsPresetSize(sizeType) || (sizeType == CUSTOM && !forcePreset)
    ensures sizeType == CUSTOM && forcePreset ==> r == px.normal
    ensures sizeType == SMALL ==> r == px.small
    ensures sizeType == NORMAL ==> r == px.normal
    ensures sizeType == LARGE ==> r == px.large
  {
    if sizeType == SMALL then px.small
    else if sizeType == NORMAL then px.normal
    else if sizeType == LARGE then px.large
    else if sizeType == CUSTOM && forcePreset then px.normal
    else UNSPECIFIED_DIMENSION
  }

  /** Forcing a preset changes the outcome only for CUSTOM. */
  lemma ForcePresetOnlyAffectsCustom(sizeType: int, px: PresetPixels)
    requires px.Valid()
    ensures sizeType != CUSTOM ==>
      PresetSizeInPixels(sizeType, true, px) == PresetSizeInPixels(sizeType, false, px)
    ensures PresetSizeInPixels(CUSTOM, true, px) == PresetSizeInPixels(NORMAL, false, px)
  {
  }

  // ---------------------------------------------------------------------
  // Measurement substitution
  // ---------------------------------------------------------------------

  datatype MeasureMode = Unspecified | Exactly | AtMost

  /** A measure spec as the host hands it over: a mode and a size. */
  datatype MeasureSpec = MeasureSpec(mode: MeasureMode, size: int)

  /**
   * What the widget does in its measuring pass: either it sets its own
   * measured dimension and measures its child with the given specs, or it
   * hands the specs on to the host's standard measurement.
   */
  datatype MeasureResult =
    | CustomMeasure(measuredWidth: int, measuredHeight: int, childWidthSpec: MeasureSpec, childHeightSpec: MeasureSpec)
    | DeferToHost(widthSpec: MeasureSpec, heightSpec: MeasureSpec)

  /** An axis is given a default size when it is wrap-content and not exactly constrained. */
  predicate SubstitutesAxis(spec: MeasureSpec, wrapContent: bool) {
    spec.mode != Exactly && wrapContent
  }

  function OnMeasure(widthSpec: MeasureSpec, heightSpec: MeasureSpec, widthWraps: bool, heightWraps: bool,
                     sizeType: int, px: PresetPixels): (r: MeasureResult)
    requires px.Valid()
    ensures r.CustomMeasure? <==> SubstitutesAxis(widthSpec, widthWraps) || SubstitutesAxis(heightSpec, heightWraps)
    ensures r.DeferToHost? ==> r.widthSpec == widthSpec && r.heightSpec == heightSpec
    ensures r.CustomMeasure? ==>
      var d := PresetSizeInPixels(sizeType, true, px);
      (if SubstitutesAxis(widthSpec, widthWraps)
       then r.measuredWidth == d && r.childWidthSpec == MeasureSpec(Exactly, d)
       else r.measuredWidth == widthSpec.size && r.childWidthSpec == widthSpec) &&
      (if SubstitutesAxis(heightSpec, heightWraps)
       then r.measuredHeight == d && r.childHeightSpec == MeasureSpec(Exactly, d)
       else r.measuredHeight == heightSpec.size && r.childHeightSpec == heightSpec)
    ensures r.CustomMeasure? && IsPresetSize(sizeType) ==>
      (SubstitutesAxis(widthSpec, widthWraps) ==> r.measuredWidth >= MIN_SIZE) &&
      (SubstitutesAxis(heightSpec, heightWraps) ==> r.measuredHeight >= MIN_SIZE)
  {
    var d := PresetSizeInPixels(sizeType, true, px);
    var (hSpec, hCustom) :=
      if heightSpec.mode != Exactly && heightWraps then (MeasureSpec(Exactly, d), true) else (heightSpec, false);
    var (wSpec, wCustom) :=
      if widthSpec.mode != Exactly && widthWraps then (MeasureSpec(Exactly, d), true) else (widthSpec, false);
    if hCustom || wCustom then CustomMeasure(wSpec.size, hSpec.size, wSpec, hSpec)
    else DeferToHost(wSpec, hSpec)
  }

  // ---------------------------------------------------------------------
  // Query dimensions
  // ---------------------------------------------------------------------

  /** A (width, height) pair of an image request; either may be UNSPECIFIED_DIMENSION. */
  datatype Query = Query(width: int, height: int)

  /**
   * The query pair for a laid-out size, or None when the layout is too small
   * to tell. A preset other than CUSTOM replaces the laid-out size on both
   * axes; the crop policy then keeps the smaller side, squared when cropped
   * and with the other side left unspecified when not.
   */
  function ResolveQuery(w: int, h: int, sizeType: int, cropped: bool, px: PresetPixels): (r: Option<Query>)
    requires px.Valid()
    ensures r.None? <==> w < MIN_SIZE || h < MIN_SIZE
    ensures r.Some? ==>
      var p := PresetSizeInPixels(sizeType, false, px);
      var ew := if p != UNSPECIFIED_DIMENSION then p else w;
      var eh := if p != UNSPECIFIED_DIMENSION then p else h;
      (cropped ==> r.value == Query(Min(ew, eh), Min(ew, eh))) &&
      (!cropped && ew <= eh ==> r.value == Query(ew, UNSPECIFIED_DIMENSION)) &&
      (!cropped && ew > eh ==> r.value == Query(UNSPECIFIED_DIMENSION, eh))
    ensures r.Some? ==>
      (r.value.width != UNSPECIFIED_DIMENSION || r.value.height != UNSPECIFIED_DIMENSION) &&
      (r.value.width == UNSPECIFIED_DIMENSION || r.value.width >= MIN_SIZE) &&
      (r.value.height == UNSPECIFIED_DIMENSION || r.value.height >= MIN_SIZE)
  {
    if w < MIN_SIZE || h < MIN_SIZE then None
    else
      var p := PresetSizeInPixels(sizeType, false, px);
      var (ew, eh) := if p != UNSPECIFIED_DIMENSION then (p, p) else (w, h);
      if ew <= eh then Some(if cropped then Query(ew, ew) else Query(ew, UNSPECIFIED_DIMENSION))
      else Some(if cropped then Query(eh, eh) else Query(UNSPECIFIED_DIMENSION, eh))
  }

  /** A preset other than CUSTOM makes the query independent of the laid-out size. */
  lemma PresetIgnoresLayout(w: int, h: int, w': int, h': int, sizeType: int, cropped: bool, px: PresetPixels)
    requires px.Valid()
    requires IsPresetSize(sizeType) && sizeType != CUSTOM
    requires w >= MIN_SIZE && h >= MIN_SIZE && w' >= MIN_SIZE && h' >= MIN_SIZE
    ensures ResolveQuery(w, h, sizeType, cropped, px) == ResolveQuery(w', h', sizeType, cropped, px)
    ensures ResolveQuery(w, h, sizeType, cropped, px) ==
      var p := PresetSizeInPixels(sizeType, false, px);
      Some(if cropped then Query(p, p) else Query(p, UNSPECIFIED_DIMENSION))
  {
  }

  /** Outcome of one update of the stored query pair. */
  datatype QueryUpdate = QueryUpdate(changed: bool, query: Query)

  /**
   * The stored pair after one update, and whether it changed: too small a
   * layout leaves the pair alone and reports no change.
   */
  function UpdateQuery(stored: Query, w: int, h: int, sizeType: int, cropped: bool, px: PresetPixels): (u: QueryUpdate)
    requires px.Valid()
    ensures u.changed <==> u.query != stored
    ensures w < MIN_SIZE || h < MIN_SIZE ==> u.query == stored
    ensures w >= MIN_SIZE && h >= MIN_SIZE ==> Some(u.query) == ResolveQuery(w, h, sizeType, cropped, px)
  {
    match ResolveQuery(w, h, sizeType, cropped, px)
    case None => QueryUpdate(false, stored)
    case Some(q) => QueryUpdate(q != stored, q)
  }

  /** Updating a second time with the same inputs reports no change. */
  lemma UpdateQueryIdempotent(stored: Query, w: int, h: int, sizeType: int, cropped: bool, px: PresetPixels)
    requires px.Valid()
    ensures var u := UpdateQuery(stored, w, h, sizeType, cropped, px);
      UpdateQuery(u.query, w, h, sizeType, cropped, px) == QueryUpdate(false, u.query)
  {
  }

  // ---------------------------------------------------------------------
  // Refresh decision
  // ---------------------------------------------------------------------

  datatype Decision = ShowPlaceholder | IssueRequest | KeepCurrent

  /**
   * What a refresh does once the query pair has been updated: without a user
   * or without any usable dimension it shows a placeholder; otherwise it asks
   * for a new image when the pair changed or the caller forces it.
   */
  function RefreshDecision(userId: Option<string>, q: Query, changed: bool, force: bool): (d: Decision)
    ensures d == ShowPlaceholder <==>
      IsNullOrEmpty(userId) || (q.width == UNSPECIFIED_DIMENSION && q.height == UNSPECIFIED_DIMENSION)
    ensures d == IssueRequest <==>
      !IsNullOrEmpty(userId) && (q.width != UNSPECIFIED_DIMENSION || q.height != UNSPECIFIED_DIMENSION) &&
      (changed || force)
  {
    if IsNullOrEmpty(userId) || (q.width == UNSPECIFIED_DIMENSION && q.height == UNSPECIFIED_DIMENSION) then
      ShowPlaceholder
    else if changed || force then
      IssueRequest
    else
      KeepCurrent
  }

  /**
   * A layout too small to measure does not stop a forced refresh: with a user
   * and a stored pair that has a usable dimension, a request is still issued.
   */
  lemma ForcedRefreshBelowMinSizeStillIssues(userId: Option<string>, stored: Query, w: int, h: int,
                                             sizeType: int, cropped: bool, px: PresetPixels)
    requires px.Valid()
    requires w < MIN_SIZE || h < MIN_SIZE
    requires !IsNullOrEmpty(userId)
    requires stored.width != UNSPECIFIED_DIMENSION || stored.height != UNSPECIFIED_DIMENSION
    ensures var u := UpdateQuery(stored, w, h, sizeType, cropped, px);
      !u.changed && RefreshDecision(userId, u.query, u.changed, true) == IssueRequest &&
      RefreshDecision(userId, u.query, u.changed, false) == KeepCurrent
  {
  }

  /** After an update that could be computed, a refresh for a known user never shows a placeholder. */
  lemma ComputedQueryNeverPlaceholder(userId: Option<string>, stored: Query, w: int, h: int,
                                      sizeType: int, cropped: bool, force: bool, px: PresetPixels)
    requires px.Valid()
    requires w >= MIN_SIZE && h >= MIN_SIZE
    requires !IsNullOrEmpty(userId)
    ensures var u := UpdateQuery(stored, w, h, sizeType, cropped, px);
      RefreshDecision(userId, u.query, u.changed, force) != ShowPlaceholder
  {
  }

  /**
   * Whether assigning a user id forces a refresh: always, unless the previous
   * id was present and non-empty and the new one equals it ignoring case.
   * `equalsIgnoreCase` stands for the string comparison of the host; nothing
   * about it is assumed here.
   */
  function ForcesRefresh(previous: Option<string>, next: Option<string>,
                         equalsIgnoreCase: (string, string) -> bool): bool
  {
    IsNullOrEmpty(previous) || !(next.Some? && equalsIgnoreCase(previous.value, next.value))
  }

  /**
   * What the force rule of a user id assignment is for: with the stored pair
   * already matching the layout, a new non-empty id fetches exactly when the
   * previous id was missing or empty or differs from it ignoring case; in
   * particular, assigning the same id again fetches nothing when the
   * comparison is reflexive.
   */
  lemma UserIdChangeFetchesOnlyOnRealChange(previous: Option<string>, next: Option<string>,
                                            equalsIgnoreCase: (string, string) -> bool,
                                            stored: Query, w: int, h: int, sizeType: int, cropped: bool,
                                            px: PresetPixels)
    requires px.Valid()
    requires UpdateQuery(stored, w, h, sizeType, cropped, px).query == stored
    requires !IsNullOrEmpty(next)
    requires stored.width != UNSPECIFIED_DIMENSION || stored.height != UNSPECIFIED_DIMENSION
    ensures var u := UpdateQuery(stored, w, h, sizeType, cropped, px);
      var d := RefreshDecision(next, u.query, u.changed, ForcesRefresh(previous, next, equalsIgnoreCase));
      (d == IssueRequest <==> IsNullOrEmpty(previous) || !equalsIgnoreCase(previous.value, next.value)) &&
      (d != IssueRequest ==> d == KeepCurrent)
    ensures (forall a :: equalsIgnoreCase(a, a)) && previous == next ==>
      var u := UpdateQuery(stored, w, h, sizeType, cropped, px);
      RefreshDecision(next, u.query, u.changed, ForcesRefresh(previous, next, equalsIgnoreCase)) == KeepCurrent
  {
  }

  /**
   * Number of image requests that n consecutive layout passes (unforced
   * refreshes at the same laid-out size) decide to issue, starting from the
   * stored pair.
   */
  function RequestsFromLayoutPasses(userId: Option<string>, stored: Query, w: int, h: int,
                                    sizeType: int, cropped: bool, px: PresetPixels, n: nat): nat
    requires px.Valid()
    decreases n
  {
    if n == 0 then 0
    else
      var u := UpdateQuery(stored, w, h, sizeType, cropped, px);
      (if RefreshDecision(userId, u.query, u.changed, false) == IssueRequest then 1 else 0) +
      RequestsFromLayoutPasses(userId, u.query, w, h, sizeType, cropped, px, n - 1)
  }

  /** Once the stored pair matches the layout, further layout passes issue nothing. */
  lemma {:induction false} SettledLayoutIssuesNothing(userId: Option<string>, stored: Query, w: int, h: int,
                                                      sizeType: int, cropped: bool, px: PresetPixels, n: nat)
    requires px.Valid()
    requires UpdateQuery(stored, w, h, sizeType, cropped, px).query == stored
    ensures RequestsFromLayoutPasses(userId, stored, w, h, sizeType, cropped, px, n) == 0
    decreases n
  {
    if n > 0 {
      SettledLayoutIssuesNothing(userId, stored, w, h, sizeType, cropped, px, n - 1);
    }
  }

  /**
   * Repeated layout passes at one size issue at most one request, and exactly
   * one when there is a user and the first pass changes the stored pair.
   */
  lemma {:induction false} RepeatedLayoutIssuesAtMostOne(userId: Option<string>, stored: Query, w: int, h: int,
                                                         sizeType: int, cropped: bool, px: PresetPixels, n: nat)
    requires px.Valid()
    ensures RequestsFromLayoutPasses(userId, stored, w, h, sizeType, cropped, px, n) <= 1
    ensures n >= 1 && !IsNullOrEmpty(userId) && UpdateQuery(stored, w, h, sizeType, cropped, px).changed ==>
      RequestsFromLayoutPasses(userId, stored, w, h, sizeType, cropped, px, n) == 1
  {
    if n > 0 {
      var u := UpdateQuery(stored, w, h, sizeType, cropped, px);
      UpdateQueryIdempotent(stored, w, h, sizeType, cropped, px);
      SettledLayoutIssuesNothing(userId, u.query, w, h, sizeType, cropped, px, n - 1);
    }
  }

  // ---------------------------------------------------------------------
  // Saved state
  // ---------------------------------------------------------------------

  /** Opaque image contents. */
  datatype Bitmap = Bitmap(id: nat)

  /** Opaque state saved by the host framework. */
  datatype Parcel = Parcel(id: nat)

  datatype BundleValue =
    | StringValue(s: Option<string>)
    | IntValue(i: int)
    | BoolValue(b: bool)
    | BitmapValue(bitmap: Option<Bitmap>)
    | ParcelValue(parcel: Option<Parcel>)

  /** A key/value bundle of saved view state. */
  type Bundle = map<string, BundleValue>

  /** Saved state handed back on restore: a bundle, or some other host state. */
  datatype SavedState = BundleState(bundle: Bundle) | OtherState(parcel: Parcel)

  const SUPER_STATE_KEY: string := "ProfilePictureView_superState"
  const USER_ID_KEY: string := "ProfilePictureView_userId"
  const PRESET_SIZE_KEY: string := "ProfilePictureView_presetSize"
  const IS_CROPPED_KEY: string := "ProfilePictureView_isCropped"
  const BITMAP_KEY: string := "ProfilePictureView_bitmap"
  const BITMAP_WIDTH_KEY: string := "ProfilePictureView_width"
  const BITMAP_HEIGHT_KEY: string := "ProfilePictureView_height"

  // Bundle getters: a missing key or a value of another kind reads as the default.
  function GetString(b: Bundle, key: string): Option<string> {
    if key in b && b[key].StringValue? then b[key].s else None
  }
  function GetInt(b: Bundle, key: string): int {
    if key in b && b[key].IntValue? then b[key].i else 0
  }
  function GetBoolean(b: Bundle, key: string): bool {
    if key in b && b[key].BoolValue? then b[key].b else false
  }
  function GetBitmap(b: Bundle, key: string): Option<Bitmap> {
    if key in b && b[key].BitmapValue? then b[key].bitmap else None
  }
  function GetParcel(b: Bundle, key: string): Option<Parcel> {
    if key in b && b[key].ParcelValue? then b[key].parcel else None
  }

  /** The six fields of the widget that survive a save/restore. */
  datatype SavedFields = SavedFields(userId: Option<string>, presetSizeType: int, isCropped: bool,
                                     imageContents: Option<Bitmap>, queryWidth: int, queryHeight: int)

  /** The fields a restore reads back out of a bundle. */
  function ReadSavedFields(b: Bundle): SavedFields {
    SavedFields(GetString(b, USER_ID_KEY), GetInt(b, PRESET_SIZE_KEY), GetBoolean(b, IS_CROPPED_KEY),
                GetBitmap(b, BITMAP_KEY), GetInt(b, BITMAP_WIDTH_KEY), GetInt(b, BITMAP_HEIGHT_KEY))
  }

  /** The bundle a save writes; reading it back gives the same fields and host state. */
  function SaveFields(f: SavedFields, superState: Option<Parcel>): (b: Bundle)
    ensures ReadSavedFields(b) == f
    ensures GetParcel(b, SUPER_STATE_KEY) == superState
    ensures b.Keys == {SUPER_STATE_KEY, USER_ID_KEY, PRESET_SIZE_KEY, IS_CROPPED_KEY,
                       BITMAP_KEY, BITMAP_WIDTH_KEY, BITMAP_HEIGHT_KEY}
  {
    map[SUPER_STATE_KEY := ParcelValue(superState),
        USER_ID_KEY := StringValue(f.userId),
        PRESET_SIZE_KEY := IntValue(f.presetSizeType),
        IS_CROPPED_KEY := BoolValue(f.isCropped),
        BITMAP_KEY := BitmapValue(f.imageContents),
        BITMAP_WIDTH_KEY := IntValue(f.queryWidth),
        BITMAP_HEIGHT_KEY := IntValue(f.queryHeight)]
  }

  // ---------------------------------------------------------------------
  // The widget
  // ---------------------------------------------------------------------

  /** What the widget's image view shows. */
  datatype Placeholder = BlankSquare | BlankPortrait
  datatype Rendered = NothingRendered | PlaceholderImage(placeholder: Placeholder) | BitmapImage(bitmap: Bitmap)

  /** Error condition reported by the preset size setter. */
  datatype Error = IllegalArgument(message: string)
  datatype Outcome = Pass | Fail(error: Error)

  /** The answer to an image request: image contents, an error, or both. */
  datatype ImageResponse = ImageResponse(bitmap: Option<Bitmap>, error: Option<string>)

  /** A handle on one submitted image request. */
  class ImageRequest {
    const userId: string
    const width: int
    const height: int

    constructor (userId: string, width: int, height: int)
      ensures this.userId == userId && this.width == width && this.height == height
    {
      this.userId := userId;
      this.width := width;
      this.height := height;
    }
  }

  class ProfilePictureView {
    var userId: Option<string>
    var queryHeight: int
    var queryWidth: int
    var isCropped: bool
    var imageContents: Option<Bitmap>
    var presetSizeType: int
    var lastRequest: ImageRequest?
    const pixels: PresetPixels

    /** Every request submitted so far, oldest first. */
    ghost var submitted: seq<ImageRequest>
    /** The requests cancelled so far. */
    ghost var cancelled: set<ImageRequest>
    /** What the image view last showed. */
    ghost var rendered: Rendered

    /**
     * Object invariant: the last submitted request is the one held in
     * lastRequest, and every earlier one has been cancelled.
     */
    ghost predicate Valid()
      reads this
    {
      pixels.Valid() &&
      (lastRequest == null <==> submitted == []) &&
      (lastRequest != null ==> submitted[|submitted| - 1] == lastRequest) &&
      (forall i, j :: 0 <= i < j < |submitted| ==> submitted[i] != submitted[j]) &&
      cancelled == (set r | r in Earlier(submitted))
    }

    /** All submitted requests but the most recent one. */
    static ghost function Earlier(s: seq<ImageRequest>): seq<ImageRequest> {
      if s == [] then [] else s[..|s| - 1]
    }

    /** Requests submitted and not cancelled. */
    ghost function Live(): set<ImageRequest>
      reads this
    {
      (set r | r in submitted) - cancelled
    }

    /** At most one request is live at a time: the one in lastRequest. */
    lemma AtMostOneLive()
      requires Valid()
      ensures Live() == if lastRequest == null then {} else {lastRequest}
    {
    }

    function Fields(): SavedFields
      reads this
    {
      SavedFields(userId, presetSizeType, isCropped, imageContents, queryWidth, queryHeight)
    }

    twostate predicate RequestsUnchanged()
      reads this
    {
      lastRequest == old(lastRequest) && submitted == old(submitted) && cancelled == old(cancelled)
    }

    /**
     * The effect of one refresh on the query pair, the requests and the
     * rendering, for the current user id, crop mode and preset.
     */
    twostate predicate Refreshed(force: bool, width: int, height: int, constructionFails: bool)
      reads this
    {
      pixels.Valid() &&
      var u := UpdateQuery(old(Query(queryWidth, queryHeight)), width, height, presetSizeType, isCropped, pixels);
      Query(queryWidth, queryHeight) == u.query &&
      match RefreshDecision(userId, u.query, u.changed, force)
      case ShowPlaceholder =>
        rendered == PlaceholderImage(if isCropped then BlankSquare else BlankPortrait) && RequestsUnchanged()
      case IssueRequest =>
        rendered == old(rendered) &&
        if constructionFails then RequestsUnchanged()
        else
          lastRequest != null && fresh(lastRequest) &&
          userId.Some? && lastRequest.userId == userId.value &&
          lastRequest.width == queryWidth && lastRequest.height == queryHeight &&
          submitted == old(submitted) + [lastRequest] &&
          cancelled == old(cancelled) + (if old(lastRequest) == null then {} else {old(lastRequest)})
      case KeepCurrent =>
        rendered == old(rendered) && RequestsUnchanged()
    }

    constructor (pixels: PresetPixels)
      requires pixels.Valid()
      ensures Valid() && this.pixels == pixels
      ensures Fields() == SavedFields(None, CUSTOM, false, None, UNSPECIFIED_DIMENSION, UNSPECIFIED_DIMENSION)
      ensures lastRequest == null && rendered == NothingRendered
    {
      this.pixels := pixels;
      userId := None;
      queryHeight := UNSPECIFIED_DIMENSION;
      queryWidth := UNSPECIFIED_DIMENSION;
      isCropped := false;
      imageContents := None;
      presetSizeType := CUSTOM;
      lastRequest := null;
      submitted := [];
      cancelled := {};
      rendered := NothingRendered;
    }

    /** Applies a preset size; anything but the four preset constants is refused. */
    method SetPresetSize(sizeType: int) returns (result: Outcome)
      requires Valid()
      modifies this`presetSizeType
      ensures Valid()
      ensures result.Pass? <==> IsPresetSize(sizeType)
      ensures presetSizeType == if result.Pass? then sizeType else old(presetSizeType)
    {
      if IsPresetSize(sizeType) {
        presetSizeType := sizeType;
        result := Pass;
      } else {
        result := Fail(IllegalArgument("Must use a predefined preset size"));
      }
    }

    /** Selects the cropped or the original image and refreshes without forcing. */
    method SetCropped(showCroppedVersion: bool, width: int, height: int, constructionFails: bool)
      requires Valid()
      modifies this
      ensures Valid()
      ensures isCropped == showCroppedVersion
      ensures userId == old(userId) && presetSizeType == old(presetSizeType) && imageContents == old(imageContents)
      ensures Refreshed(false, width, height, constructionFails)
    {
      isCropped := showCroppedVersion;
      RefreshImage(false, width, height, constructionFails);
    }

    /** Sets the user id and refreshes, forcing the refresh when the id really changed. */
    method SetUserId(newUserId: Option<string>, equalsIgnoreCase: (string, string) -> bool,
                     width: int, height: int, constructionFails: bool)
      requires Valid()
      modifies this
      ensures Valid()
      ensures userId == newUserId
      ensures isCropped == old(isCropped) && presetSizeType == old(presetSizeType) && imageContents == old(imageContents)
      ensures Refreshed(ForcesRefresh(old(userId), newUserId, equalsIgnoreCase), width, height, constructionFails)
    {
      var force := ForcesRefresh(userId, newUserId, equalsIgnoreCase);
      userId := newUserId;
      RefreshImage(force, width, height, constructionFails);
    }

    /** The end of a layout pass: an unforced refresh at the laid-out size. */
    method OnLayout(width: int, height: int, constructionFails: bool)
      requires Valid()
      modifies this
      ensures Valid()
      ensures Fields() == old(Fields()).(queryWidth := queryWidth, queryHeight := queryHeight)
      ensures Refreshed(false, width, height, constructionFails)
    {
      RefreshImage(false, width, height, constructionFails);
    }

    /**
     * The hand-off of the widget's state: reading the bundle back gives the
     * six saved fields and the host's own state.
     */
    method OnSaveInstanceState(superState: Option<Parcel>) returns (state: SavedState)
      ensures state.BundleState?
      ensures ReadSavedFields(state.bundle) == Fields()
      ensures GetParcel(state.bundle, SUPER_STATE_KEY) == superState
    {
      state := BundleState(SaveFields(Fields(), superState));
    }

    /**
     * Restores the six fields from a bundle and shows the restored image if
     * there is one; any other state is left to the host.
     */
    method OnRestoreInstanceState(state: SavedState)
      requires Valid()
      modifies this
      ensures Valid()
      ensures Fields() == if state.BundleState? then ReadSavedFields(state.bundle) else old(Fields())
      ensures rendered == if state.BundleState? && imageContents.Some? then BitmapImage(imageContents.value)
                          else old(rendered)
      ensures RequestsUnchanged()
    {
      match state
      case OtherState(_) =>
      case BundleState(b) =>
        userId := GetString(b, USER_ID_KEY);
        presetSizeType := GetInt(b, PRESET_SIZE_KEY);
        isCropped := GetBoolean(b, IS_CROPPED_KEY);
        imageContents := GetBitmap(b, BITMAP_KEY);
        queryWidth := GetInt(b, BITMAP_WIDTH_KEY);
        queryHeight := GetInt(b, BITMAP_HEIGHT_KEY);
        if imageContents.Some? {
          rendered := BitmapImage(imageContents.value);
        }
    }

    /**
     * Re-decides what to show: a placeholder, a new request that supersedes
     * the previous one, or nothing. A request that cannot be built is skipped.
     */
    method RefreshImage(force: bool, width: int, height: int, constructionFails: bool)
      requires Valid()
      modifies this
      ensures Valid()
      ensures Fields() == old(Fields()).(queryWidth := queryWidth, queryHeight := queryHeight)
      ensures Refreshed(force, width, height, constructionFails)
    {
      var changed := UpdateImageQueryParameters(width, height);
      if IsNullOrEmpty(userId) ||
         (queryWidth == UNSPECIFIED_DIMENSION && queryHeight == UNSPECIFIED_DIMENSION) {
        rendered := PlaceholderImage(if isCropped then BlankSquare else BlankPortrait);
      } else if changed || force {
        if !constructionFails {
          var request := new ImageRequest(userId.value, queryWidth, queryHeight);
          Supersede(request);
        }
      }
    }

    /** Submits a request, cancels the previous one and remembers the new one. */
    method Supersede(request: ImageRequest)
      requires Valid()
      requires request !in submitted
      modifies this`submitted, this`cancelled, this`lastRequest
      ensures Valid()
      ensures lastRequest == request && submitted == old(submitted) + [request]
      ensures cancelled == old(cancelled) + (if old(lastRequest) == null then {} else {old(lastRequest)})
    {
      assert Earlier(submitted + [request]) == submitted;
      submitted := submitted + [request];
      if lastRequest != null {
        cancelled := cancelled + {lastRequest};
      }
      lastRequest := request;
    }

    /** Accepts an image response: keeps its image and shows it unless an error came with it. */
    method ProcessResponse(response: ImageResponse)
      requires Valid()
      modifies this
      ensures Valid()
      ensures imageContents == response.bitmap
      ensures Fields() == old(Fields()).(imageContents := response.bitmap)
      ensures rendered == if response.error.None? && response.bitmap.Some? then BitmapImage(response.bitmap.value)
                          else old(rendered)
      ensures RequestsUnchanged()
    {
      imageContents := response.bitmap;
      if response.error.None? && imageContents.Some? {
        rendered := BitmapImage(imageContents.value);
      }
    }

    /**
     * Recomputes the query pair from the laid-out size and reports whether it
     * changed; a layout below the minimum size leaves it alone.
     */
    method UpdateImageQueryParameters(width: int, height: int) returns (changed: bool)
      requires Valid()
      modifies this`queryWidth, this`queryHeight
      ensures Valid()
      ensures var u := UpdateQuery(old(Query(queryWidth, queryHeight)), width, height, presetSizeType, isCropped, pixels);
        changed == u.changed && Query(queryWidth, queryHeight) == u.query
    {
      var newHeightPx := height;
      var newWidthPx := width;
      if newWidthPx < MIN_SIZE || newHeightPx < MIN_SIZE {
        changed := false;
        return;
      }
      var presetSize := PresetSizeInPixels(presetSizeType, false, pixels);
      if presetSize != UNSPECIFIED_DIMENSION {
        newWidthPx := presetSize;
        newHeightPx := presetSize;
      }
      if newWidthPx <= newHeightPx {
        newHeightPx := if isCropped then newWidthPx else UNSPECIFIED_DIMENSION;
      } else {
        newWidthPx := if isCropped then newHeightPx else UNSPECIFIED_DIMENSION;
      }
      changed := newWidthPx != queryWidth || newHeightPx != queryHeight;
      queryWidth := newWidthPx;
      queryHeight := newHeightPx;
    }
  }
  /**
   * A client of the widget: what callers can conclude from the contracts
   * alone about refetching on resize and about a save/restore round trip.
   */
  method ResizeAndRestoreScenario()
  {
    var px := PresetPixels(50, 100, 200);
    var eq := (a: string, b: string) => a == b;
    var v := new ProfilePictureView(px);

    // Not laid out yet and no user: the square placeholder, no request.
    v.SetCropped(true, 0, 0, false);
    assert v.rendered == PlaceholderImage(BlankSquare) && v.submitted == [];

    // A new user forces a refresh, but there is still no usable dimension.
    v.SetUserId(Some("alice"), eq, 0, 0, false);
    assert v.submitted == [] && v.lastRequest == null;

    // The first layout pass asks for a 100 x 100 square.
    v.OnLayout(100, 100, false);
    assert |v.submitted| == 1 && v.lastRequest != null;
    assert v.lastRequest.width == 100 && v.lastRequest.height == 100;
    var first := v.lastRequest;

    // The same layout again asks for nothing.
    v.OnLayout(100, 100, false);
    assert v.submitted == [first] && v.cancelled == {};

    // A larger layout supersedes the first request.
    v.OnLayout(200, 200, false);
    assert |v.submitted| == 2 && v.lastRequest != first && v.cancelled == {first};
    assert v.lastRequest.width == 200 && v.lastRequest.height == 200;

    // An image arrives and is shown; a restored copy shows it too.
    v.ProcessResponse(ImageResponse(Some(Bitmap(7)), None));
    var saved := v.OnSaveInstanceState(None);
    var w := new ProfilePictureView(px);
    w.OnRestoreInstanceState(saved);
    assert w.Fields() == v.Fields();
    assert w.rendered == BitmapImage(Bitmap(7)) && w.submitted == [];
  }
}
