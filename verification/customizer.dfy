/**
 * The product customizer: the controller that owns the working image and
 * the order form (format, custom dimensions, paper, project name), drives
 * the crop rectangle, switches to the filter and AI editors and takes their
 * results back, and validates the form into a cart line.
 */
module Customizer {
  import opened JsText
  import opened CropGeometry
  import opened Formats

  /** A custom dimension field (`type="number"`): the text it holds, and what
      `parseFloat` reads from that text, `None` standing for NaN. A number
      field holds either nothing or a valid number. */
  datatype DimInput = DimInput(text: string, parsed: Option<real>)

  predicate WellFormedDim(d: DimInput) {
    d.text == "" <==> d.parsed.None?
  }

  const EmptyDim: DimInput := DimInput("", None)

  /** The per-field flags of the form. */
  datatype Errors = Errors(image: bool, paper: bool, project: bool)

  const NoErrors: Errors := Errors(false, false, false)

  const Matte: string := "Mate"
  const Glossy: string := "Brillante"

  /** The line the customizer hands to the cart, before the cart gives it
      an id. */
  datatype LineItem = LineItem(
    productId: int, imgSrc: string, projectName: string, format: string,
    paperType: string, priceCents: nat, quantity: int)

  // ---------------------------------------------------------------------
  // The target aspect ratio and the apply-crop guard

  /** A parsed number as a JavaScript condition reads it: NaN and 0 are
      false. */
  predicate Truthy(x: Option<real>) {
    x.Some? && x.value != 0.0
  }

  /** `initCropRect`'s test on custom dimensions: both are numbers greater
      than zero. */
  predicate CustomDimsUsable(w: Option<real>, h: Option<real>) {
    w.Some? && h.Some? && w.value > 0.0 && h.value > 0.0
  }

  /** A fixed format's identifier names two positive whole numbers. */
  lemma FixedIdDims(id: string)
    requires IsTableId(id) && id != CustomId
    ensures ParseDims(id).Some? && ParseDims(id).value.0 > 0 && ParseDims(id).value.1 > 0
  {
    var i :| 0 <= i < |Table| && Table[i].id == id;
    if i < |FixedDims| {
      FixedFormatDims(i);
    }
  }

  /** The width and height `initCropRect` takes the aspect ratio from: the
      parsed custom dimensions when both are positive, the numbers in a
      fixed format's identifier; `None` when it waits for valid input. */
  function CropTarget(format: string, w: Option<real>, h: Option<real>): (t: Option<(real, real)>)
    requires format == CustomId || IsTableId(format)
    ensures t.Some? ==> t.value.0 > 0.0 && t.value.1 > 0.0
    ensures t.Some? <==> format != CustomId || CustomDimsUsable(w, h)
    ensures format == CustomId && t.Some? ==> t.value == (w.value, h.value)
  {
    if format == CustomId then
      if CustomDimsUsable(w, h) then Some((w.value, h.value)) else None
    else
      FixedIdDims(format);
      var d := ParseDims(format).value;
      Some((d.0 as real, d.1 as real))
  }

  /** The custom-dimension guard of `handleApplyCrop` as written: both
      parsed values truthy, which lets negative values through. */
  predicate ApplyCropGuardAsWritten(w: Option<real>, h: Option<real>) {
    Truthy(w) && Truthy(h)
  }

  /** With width 15 and height -5 the guard as written lets the crop go
      ahead, although `initCropRect` never computed a rectangle for those
      dimensions: the crop uses whatever rectangle was left before. */
  lemma ApplyCropGuardAdmitsNegative()
    ensures ApplyCropGuardAsWritten(Some(15.0), Some(-5.0))
    ensures CropTarget(CustomId, Some(15.0), Some(-5.0)).None?
  {
  }

  /** The corrected guard accepts exactly the dimensions `initCropRect`
      computes a rectangle for; it is stronger than the guard as written,
      and the two differ only on negative values. */
  lemma CorrectedApplyCropGuard(w: Option<real>, h: Option<real>)
    ensures CustomDimsUsable(w, h) <==> CropTarget(CustomId, w, h).Some?
    ensures CustomDimsUsable(w, h) ==> ApplyCropGuardAsWritten(w, h)
    ensures ApplyCropGuardAsWritten(w, h) && w.value >= 0.0 && h.value >= 0.0 ==> CustomDimsUsable(w, h)
  {
  }

  /** The rectangle `initCropRect` sets for a displayed image of size
      `display` and a target of `w` by `h`. An image not yet laid out
      (a zero side) gives an empty rectangle at its centre. */
  function StartRect(display: Size, w: real, h: real): (r: Rect)
    requires display.width >= 0.0 && display.height >= 0.0 && w > 0.0 && h > 0.0
    ensures Positive(display) ==> r == InitialRect(display, w, h)
    ensures r.width >= 0.0 && r.height >= 0.0
    ensures Within(r, display.width, display.height)
  {
    if Positive(display) then InitialRect(display, w, h)
    else Rect(display.width / 2.0, display.height / 2.0, 0.0, 0.0)
  }

  // ---------------------------------------------------------------------
  // The controller

  /** Every piece of the customizer's state, so that each handler can state
      its whole effect as an update of the state before it. */
  datatype Snapshot = Snapshot(
    selectedFormat: string, paperType: string, projectName: string,
    uploadedImage: Option<string>, isCropped: bool, isEditing: bool, isAIEditing: bool,
    customWidth: DimInput, customHeight: DimInput, errors: Errors,
    cropRect: Rect, isDragging: bool, dragStart: Point)

  /** A crop started by the click and waiting for the image to load: the
      working image and the crop rectangle as they were at the click. */
  datatype CropJob = CropJob(source: string, rect: Rect)

  /** What the load of a started crop did: nothing; copied the given region
      of the natural image into the new working image; or, for a displayed
      image with a zero side, whose scale factors are not finite, produced
      a canvas without pixels. */
  datatype CropOutcome = NotApplied | Copied(region: Rect) | Blank

  /** `toDataURL` of a canvas without pixels. */
  const BlankCanvas: string := "data:,"

  class ProductCustomizer {
    const productId: int
    var selectedFormat: string
    var paperType: string
    var projectName: string
    var uploadedImage: Option<string>
    var isCropped: bool
    var isEditing: bool
    var isAIEditing: bool
    var customWidth: DimInput
    var customHeight: DimInput
    var errors: Errors
    var cropRect: Rect
    var isDragging: bool
    var dragStart: Point

    function State(): Snapshot
      reads this
    {
      Snapshot(selectedFormat, paperType, projectName, uploadedImage, isCropped,
               isEditing, isAIEditing, customWidth, customHeight, errors,
               cropRect, isDragging, dragStart)
    }

    /** The customizer's own page is showing, not one of the editors. */
    predicate OnMainView()
      reads this
    {
      !isEditing && !isAIEditing
    }

    ghost predicate Valid()
      reads this
    {
      && IsTableId(selectedFormat)
      && (paperType == "" || paperType == Matte || paperType == Glossy)
      && WellFormedDim(customWidth) && WellFormedDim(customHeight)
      && cropRect.width >= 0.0 && cropRect.height >= 0.0
      // the crop is applied to an image that is there
      && (isCropped ==> uploadedImage.Some?)
      // the editors are reached one at a time, from a cropped image
      && !(isEditing && isAIEditing)
      && (isEditing || isAIEditing ==> isCropped)
    }

    constructor (productId: int)
      ensures Valid() && OnMainView()
      ensures this.productId == productId
      ensures State() == Snapshot(DefaultId, "", "", None, false, false, false,
                                  EmptyDim, EmptyDim, NoErrors,
                                  Rect(0.0, 0.0, 0.0, 0.0), false, Point(0.0, 0.0))
    {
      this.productId := productId;
      selectedFormat := DefaultId;
      paperType := "";
      projectName := "";
      uploadedImage := None;
      isCropped := false;
      isEditing := false;
      isAIEditing := false;
      customWidth := EmptyDim;
      customHeight := EmptyDim;
      errors := NoErrors;
      cropRect := Rect(0.0, 0.0, 0.0, 0.0);
      isDragging := false;
      dragStart := Point(0.0, 0.0);
      assert Table[2].id == DefaultId;
    }

    /** `handleFileUpload`, once the file has been read: the new image is
        uncropped and its missing-image flag is cleared. */
    method UploadLoaded(src: string)
      requires Valid() && OnMainView()
      modifies this
      ensures Valid() && OnMainView()
      ensures State() == old(State()).(uploadedImage := Some(src), isCropped := false,
                                       errors := old(errors).(image := false))
    {
      uploadedImage := Some(src);
      isCropped := false;
      errors := errors.(image := false);
    }

    /** The button that discards the image. */
    method RemoveImage()
      requires Valid() && OnMainView()
      modifies this
      ensures Valid() && OnMainView()
      ensures State() == old(State()).(uploadedImage := None, isCropped := false)
    {
      uploadedImage := None;
      isCropped := false;
    }

    /** `initCropRect`, with the displayed image's size, `None` while the
        image element is absent: centres the largest rectangle of the
        target ratio, or does nothing while there is no image or no valid
        target. Only the rectangle changes. */
    method InitCropRect(display: Option<Size>)
      requires Valid()
      requires display.Some? ==> display.value.width >= 0.0 && display.value.height >= 0.0
      modifies this
      ensures Valid()
      ensures State() == old(State()).(cropRect := cropRect)
      ensures var t := CropTarget(old(selectedFormat), old(customWidth).parsed, old(customHeight).parsed);
        if display.None? || old(uploadedImage).None? || t.None? then cropRect == old(cropRect)
        else cropRect == StartRect(display.value, t.value.0, t.value.1)
      ensures display.Some? && old(uploadedImage).Some? && Positive(display.value) && old(selectedFormat) != CustomId ==>
        var t := CropTarget(old(selectedFormat), old(customWidth).parsed, old(customHeight).parsed);
        cropRect.width / cropRect.height == t.value.0 / t.value.1
    {
      if display.None? || uploadedImage.None? {
        return;
      }
      var target := CropTarget(selectedFormat, customWidth.parsed, customHeight.parsed);
      if target.None? {
        return;
      }
      cropRect := StartRect(display.value, target.value.0, target.value.1);
    }

    /** `handleMouseDown` on the crop rectangle: starts a drag, recording
        where in the rectangle it was grabbed; ignored once cropped. */
    method MouseDown(client: Point)
      requires Valid()
      modifies this
      ensures Valid()
      ensures old(isCropped) ==> State() == old(State())
      ensures !old(isCropped) ==>
        State() == old(State()).(isDragging := true, dragStart := Grab(old(cropRect), client))
    {
      if isCropped {
        return;
      }
      isDragging := true;
      dragStart := Grab(cropRect, client);
    }

    /** `handleMouseMove`: while dragging over a displayed image, the
        rectangle follows the pointer, clamped to the image; only the
        rectangle changes. */
    method MouseMove(client: Point, display: Option<Size>)
      requires Valid()
      modifies this
      ensures Valid()
      ensures State() == old(State()).(cropRect := cropRect)
      ensures !isDragging || display.None? ==> cropRect == old(cropRect)
      ensures isDragging && display.Some? ==> cropRect == Drag(old(cropRect), dragStart, client, display.value)
      ensures cropRect.width == old(cropRect).width && cropRect.height == old(cropRect).height
      ensures isDragging && display.Some? && Within(old(cropRect), display.value.width, display.value.height) ==>
        Within(cropRect, display.value.width, display.value.height)
    {
      if !isDragging || display.None? {
        return;
      }
      cropRect := Drag(cropRect, dragStart, client, display.value);
    }

    /** `handleMouseUp`, also on leaving the image. */
    method MouseUp()
      requires Valid()
      modifies this
      ensures Valid()
      ensures State() == old(State()).(isDragging := false)
    {
      isDragging := false;
    }

    /**
     * The click on `handleApplyCrop`: nothing is started without an image,
     * without its element or, for the custom format, without two positive
     * dimensions (the corrected guard). Otherwise the working image starts
     * loading, and its `onload` callback keeps the image and the crop
     * rectangle of this moment. The click itself changes no state.
     */
    method ApplyCropClick(elementPresent: bool) returns (job: Option<CropJob>)
      requires Valid()
      ensures job.Some? <==>
        && uploadedImage.Some? && elementPresent
        && (selectedFormat == CustomId ==> CustomDimsUsable(customWidth.parsed, customHeight.parsed))
      ensures job.Some? ==> job.value == CropJob(uploadedImage.value, cropRect)
      ensures job.Some? ==> job.value.rect.width >= 0.0 && job.value.rect.height >= 0.0
    {
      if uploadedImage.None? || !elementPresent {
        return None;
      }
      if selectedFormat == CustomId && !CustomDimsUsable(customWidth.parsed, customHeight.parsed) {
        return None;
      }
      job := Some(CropJob(uploadedImage.value, cropRect));
    }

    /**
     * The `onload` callback of a started crop, whenever the image has
     * loaded at its natural size, with the image element's size at that
     * time. Without a drawing context nothing happens. Otherwise the
     * region under the rectangle kept at the click, scaled to natural
     * pixels, is rendered by `render` from the image kept at the click into
     * the new working image, which counts as cropped, whatever was changed
     * in between; when the displayed image has a zero side the scale
     * factors are not finite, the canvas gets no pixels and the working
     * image becomes the blank canvas.
     */
    method CropLoaded(job: CropJob, display: Size, natural: Size, contextAvailable: bool,
                      render: (string, Rect) -> string)
      returns (outcome: CropOutcome)
      requires Valid()
      requires display.width >= 0.0 && display.height >= 0.0
      requires natural.width >= 0.0 && natural.height >= 0.0
      modifies this
      ensures Valid()
      ensures outcome.NotApplied? <==> !contextAvailable
      ensures outcome.Copied? <==> contextAvailable && Positive(display)
      ensures outcome.NotApplied? ==> State() == old(State())
      ensures outcome.Copied? ==>
        && outcome.region == NaturalRegion(job.rect, natural, display)
        && State() == old(State()).(uploadedImage := Some(render(job.source, outcome.region)),
                                    isCropped := true)
      ensures outcome.Copied? && Within(job.rect, display.width, display.height) ==>
        Within(outcome.region, natural.width, natural.height)
      ensures outcome.Blank? ==> State() == old(State()).(uploadedImage := Some(BlankCanvas), isCropped := true)
    {
      if !contextAvailable {
        return NotApplied;
      }
      if !Positive(display) {
        uploadedImage := Some(BlankCanvas);
        isCropped := true;
        return Blank;
      }
      var source := NaturalRegion(job.rect, natural, display);
      uploadedImage := Some(render(job.source, source));
      isCropped := true;
      outcome := Copied(source);
    }

    /** "Hacer Nuevo Recorte": back to choosing a rectangle. */
    method NewCrop()
      requires Valid() && OnMainView()
      modifies this
      ensures Valid() && OnMainView()
      ensures State() == old(State()).(isCropped := false)
    {
      isCropped := false;
    }

    /** A format radio button: the format changes and any crop must be
        made again. */
    method SelectFormat(id: string)
      requires Valid() && OnMainView() && IsTableId(id)
      modifies this
      ensures Valid() && OnMainView()
      ensures State() == old(State()).(selectedFormat := id, isCropped := false)
    {
      selectedFormat := id;
      isCropped := false;
    }

    /** Typing in the custom width field; any crop must be made again. */
    method SetCustomWidth(d: DimInput)
      requires Valid() && OnMainView() && WellFormedDim(d)
      modifies this
      ensures Valid() && OnMainView()
      ensures State() == old(State()).(customWidth := d, isCropped := false)
    {
      customWidth := d;
      isCropped := false;
    }

    /** Typing in the custom height field; any crop must be made again. */
    method SetCustomHeight(d: DimInput)
      requires Valid() && OnMainView() && WellFormedDim(d)
      modifies this
      ensures Valid() && OnMainView()
      ensures State() == old(State()).(customHeight := d, isCropped := false)
    {
      customHeight := d;
      isCropped := false;
    }

    /** The paper radio buttons: the choice is recorded and its flag
        cleared. */
    method SelectPaper(paper: string)
      requires Valid() && OnMainView() && (paper == Matte || paper == Glossy)
      modifies this
      ensures Valid() && OnMainView()
      ensures State() == old(State()).(paperType := paper, errors := old(errors).(paper := false))
    {
      paperType := paper;
      errors := errors.(paper := false);
    }

    /** The project name field: the name is recorded as typed and its flag
        cleared. */
    method SetProjectName(name: string)
      requires Valid() && OnMainView()
      modifies this
      ensures Valid() && OnMainView()
      ensures State() == old(State()).(projectName := name, errors := old(errors).(project := false))
    {
      projectName := name;
      errors := errors.(project := false);
    }

    /** "Editar Foto", offered once the image is cropped: opens the filter
        editor on the working image. */
    method StartEditing()
      requires Valid() && OnMainView() && isCropped
      modifies this
      ensures Valid() && !OnMainView()
      ensures State() == old(State()).(isEditing := true)
    {
      isEditing := true;
    }

    /** `handleSaveEdits`: the filtered image replaces the working image
        and the customizer's page returns, still cropped. */
    method SaveEdits(newImage: string)
      requires Valid() && isEditing
      modifies this
      ensures Valid() && OnMainView() && isCropped
      ensures State() == old(State()).(uploadedImage := Some(newImage), isEditing := false)
    {
      uploadedImage := Some(newImage);
      isEditing := false;
    }

    /** Cancelling the filter editor: the working image is unchanged. */
    method CancelEditing()
      requires Valid() && isEditing
      modifies this
      ensures Valid() && OnMainView() && isCropped
      ensures State() == old(State()).(isEditing := false)
    {
      isEditing := false;
    }

    /** The filter editor's request for the AI editor. */
    method RequestAI()
      requires Valid() && isEditing
      modifies this
      ensures Valid() && isCropped
      ensures State() == old(State()).(isEditing := false, isAIEditing := true)
    {
      isEditing := false;
      isAIEditing := true;
    }

    /** `handleSaveAI`: the AI-edited image replaces the working image. */
    method SaveAI(newImage: string)
      requires Valid() && isAIEditing
      modifies this
      ensures Valid() && OnMainView() && isCropped
      ensures State() == old(State()).(uploadedImage := Some(newImage), isAIEditing := false)
    {
      uploadedImage := Some(newImage);
      isAIEditing := false;
    }

    /** Cancelling the AI editor: the working image is unchanged. */
    method CancelAI()
      requires Valid() && isAIEditing
      modifies this
      ensures Valid() && OnMainView() && isCropped
      ensures State() == old(State()).(isAIEditing := false)
    {
      isAIEditing := false;
    }

    /**
     * `handleAddToCartClick`: flags a missing image, a missing paper and a
     * blank project name, and emits a line of quantity 1 at the format's
     * price exactly when none is flagged and, for the custom format, both
     * dimension fields hold something. Only the flags change.
     */
    method AddToCartClick() returns (item: Option<LineItem>)
      requires Valid() && OnMainView()
      modifies this
      ensures Valid() && OnMainView()
      ensures State() == old(State()).(errors := errors)
      ensures errors == Errors(old(uploadedImage).None?, old(paperType) == "", Trim(old(projectName)) == [])
      ensures item.Some? <==>
        && old(uploadedImage).Some? && old(paperType) != "" && !AllWhitespace(old(projectName))
        && (old(selectedFormat) == CustomId ==> old(customWidth).text != "" && old(customHeight).text != "")
      ensures item.Some? ==> item.value == LineItem(
        productId, old(uploadedImage).value, old(projectName),
        Label(old(selectedFormat), old(customWidth).text, old(customHeight).text),
        old(paperType), Price(old(selectedFormat)), 1)
      ensures item.Some? ==> item.value.priceCents > 0
    {
      errors := Errors(uploadedImage.None?, paperType == "", Trim(projectName) == []);
      if errors.image || errors.paper || errors.project {
        return None;
      }
      if selectedFormat == CustomId && (customWidth.text == "" || customHeight.text == "") {
        return None;
      }
      item := Some(LineItem(
        productId, uploadedImage.value, projectName,
        Label(selectedFormat, customWidth.text, customHeight.text),
        paperType, Price(selectedFormat), 1));
    }
  }
}
