/**
 * The filter editor: six colour adjustments, the CSS filter expression that
 * previews them and that the save step bakes into a new image, and the reset
 * to the neutral settings. The rendering itself is outside the model; saving
 * yields the request handed to the renderer.
 */
module PhotoEditing {
  import opened JsText

  /** Percentages, except `hueRotate`, which is in degrees. */
  datatype Adjustments = Adjustments(
    brightness: nat, contrast: nat, saturation: nat,
    sepia: nat, grayscale: nat, hueRotate: nat)

  datatype Setting = Brightness | Contrast | Saturation | Sepia | Grayscale | HueRotate

  /** The settings the editor opens with and `Reset` restores. */
  const Defaults: Adjustments := Adjustments(100, 100, 100, 0, 0, 0)

  /** The largest value the slider of a setting offers; only brightness,
      contrast and saturation have a slider, each from 0 to 200. */
  const SliderMax: nat := 200

  predicate HasSlider(k: Setting) {
    k == Brightness || k == Contrast || k == Saturation
  }

  function Get(a: Adjustments, k: Setting): nat {
    match k
    case Brightness => a.brightness
    case Contrast => a.contrast
    case Saturation => a.saturation
    case Sepia => a.sepia
    case Grayscale => a.grayscale
    case HueRotate => a.hueRotate
  }

  /** `{ ...prev, [key]: value }`: one setting replaced, the others kept. */
  function With(a: Adjustments, k: Setting, v: nat): (r: Adjustments)
    ensures Get(r, k) == v
    ensures forall j :: j != k ==> Get(r, j) == Get(a, j)
  {
    match k
    case Brightness => a.(brightness := v)
    case Contrast => a.(contrast := v)
    case Saturation => a.(saturation := v)
    case Sepia => a.(sepia := v)
    case Grayscale => a.(grayscale := v)
    case HueRotate => a.(hueRotate := v)
  }

  /** The settings the editor can reach: slider values within range, the
      three settings without a slider at their neutral value. */
  predicate Reachable(a: Adjustments) {
    a.brightness <= SliderMax && a.contrast <= SliderMax && a.saturation <= SliderMax
    && a.sepia == 0 && a.grayscale == 0 && a.hueRotate == 0
  }

  /** `getFilterString`: the CSS filter expression, adjustments in the fixed
      order brightness, contrast, saturate, sepia, grayscale, hue-rotate. */
  function FilterString(a: Adjustments): string {
    "brightness(" + (NatToString(a.brightness) +
    ("%) contrast(" + (NatToString(a.contrast) +
    ("%) saturate(" + (NatToString(a.saturation) +
    ("%) sepia(" + (NatToString(a.sepia) +
    ("%) grayscale(" + (NatToString(a.grayscale) +
    ("%) hue-rotate(" + (NatToString(a.hueRotate) + "deg)")))))))))))
  }

  /** The identity filter: every adjustment at its neutral value. */
  const IdentityFilter: string :=
    "brightness(" + ("100" + ("%) contrast(" + ("100" +
    ("%) saturate(" + ("100" + ("%) sepia(" + ("0" + ("%) grayscale(" + ("0" +
    ("%) hue-rotate(" + ("0" + "deg)")))))))))))

  /** The neutral settings render as the identity filter. */
  lemma DefaultsFilterString()
    ensures FilterString(Defaults) == IdentityFilter
  {
    RendersHundred();
    assert NatToString(0) == "0";
  }

  lemma RendersHundred()
    ensures NatToString(100) == "100"
  {
    assert NatToString(1) == "1";
    assert NatToString(10) == "10";
  }

  /** The filter expression determines the settings: distinct settings never
      preview or bake alike. */
  lemma FilterStringInjective(a: Adjustments, b: Adjustments)
    requires FilterString(a) == FilterString(b)
    ensures a == b
  {
    var rb := "%) contrast(" + (NatToString(a.contrast) +
      ("%) saturate(" + (NatToString(a.saturation) +
      ("%) sepia(" + (NatToString(a.sepia) +
      ("%) grayscale(" + (NatToString(a.grayscale) +
      ("%) hue-rotate(" + (NatToString(a.hueRotate) + "deg)")))))))));
    var rb' := "%) contrast(" + (NatToString(b.contrast) +
      ("%) saturate(" + (NatToString(b.saturation) +
      ("%) sepia(" + (NatToString(b.sepia) +
      ("%) grayscale(" + (NatToString(b.grayscale) +
      ("%) hue-rotate(" + (NatToString(b.hueRotate) + "deg)")))))))));
    PeelNumber("brightness(", a.brightness, rb, b.brightness, rb');
    var rc := "%) saturate(" + (NatToString(a.saturation) +
      ("%) sepia(" + (NatToString(a.sepia) +
      ("%) grayscale(" + (NatToString(a.grayscale) +
      ("%) hue-rotate(" + (NatToString(a.hueRotate) + "deg)")))))));
    var rc' := "%) saturate(" + (NatToString(b.saturation) +
      ("%) sepia(" + (NatToString(b.sepia) +
      ("%) grayscale(" + (NatToString(b.grayscale) +
      ("%) hue-rotate(" + (NatToString(b.hueRotate) + "deg)")))))));
    PeelNumber("%) contrast(", a.contrast, rc, b.contrast, rc');
    var rs := "%) sepia(" + (NatToString(a.sepia) +
      ("%) grayscale(" + (NatToString(a.grayscale) +
      ("%) hue-rotate(" + (NatToString(a.hueRotate) + "deg)")))));
    var rs' := "%) sepia(" + (NatToString(b.sepia) +
      ("%) grayscale(" + (NatToString(b.grayscale) +
      ("%) hue-rotate(" + (NatToString(b.hueRotate) + "deg)")))));
    PeelNumber("%) saturate(", a.saturation, rs, b.saturation, rs');
    var rp := "%) grayscale(" + (NatToString(a.grayscale) +
      ("%) hue-rotate(" + (NatToString(a.hueRotate) + "deg)")));
    var rp' := "%) grayscale(" + (NatToString(b.grayscale) +
      ("%) hue-rotate(" + (NatToString(b.hueRotate) + "deg)")));
    PeelNumber("%) sepia(", a.sepia, rp, b.sepia, rp');
    var rg := "%) hue-rotate(" + (NatToString(a.hueRotate) + "deg)");
    var rg' := "%) hue-rotate(" + (NatToString(b.hueRotate) + "deg)");
    PeelNumber("%) grayscale(", a.grayscale, rg, b.grayscale, rg');
    PeelNumber("%) hue-rotate(", a.hueRotate, "deg)", b.hueRotate, "deg)");
  }

  /** After a common prefix, a rendered number followed by text that starts
      with a non-digit is recovered uniquely. */
  lemma PeelNumber(prefix: string, m: nat, r1: string, n: nat, r2: string)
    requires r1 != [] && !IsDigit(r1[0]) && r2 != [] && !IsDigit(r2[0])
    requires prefix + (NatToString(m) + r1) == prefix + (NatToString(n) + r2)
    ensures m == n && r1 == r2
  {
    var s1 := NatToString(m) + r1;
    var s2 := NatToString(n) + r2;
    assert s1 == (prefix + s1)[|prefix|..] && s2 == (prefix + s2)[|prefix|..];
    DigitRunUnique(NatToString(m), r1, NatToString(n), r2);
    NatToStringInjective(m, n);
  }

  /** A maximal run of digits at the head of a string is unique. */
  lemma {:induction false} DigitRunUnique(d1: string, r1: string, d2: string, r2: string)
    requires AllDigits(d1) && AllDigits(d2)
    requires r1 != [] && !IsDigit(r1[0]) && r2 != [] && !IsDigit(r2[0])
    requires d1 + r1 == d2 + r2
    ensures d1 == d2 && r1 == r2
  {
    var c := (d1 + r1)[0];
    assert c == (d2 + r2)[0];
    assert IsDigit(c) <==> d1 != [];
    assert IsDigit(c) <==> d2 != [];
    if d1 == [] {
      assert d1 + r1 == r1 && d2 + r2 == r2;
    } else {
      assert (d1 + r1)[1..] == d1[1..] + r1 && (d2 + r2)[1..] == d2[1..] + r2;
      DigitRunUnique(d1[1..], r1, d2[1..], r2);
      assert d1 == [d1[0]] + d1[1..] && d2 == [d2[0]] + d2[1..];
    }
  }

  /** What the save step hands to the renderer: the source image and the
      filter to draw it through at natural size. */
  datatype Bake = Bake(source: string, filter: string)

  class PhotoEditor {
    const imageSrc: string
    var settings: Adjustments

    ghost predicate Valid()
      reads this
    {
      Reachable(settings)
    }

    constructor (imageSrc: string)
      ensures Valid() && this.imageSrc == imageSrc && settings == Defaults
    {
      this.imageSrc := imageSrc;
      settings := Defaults;
    }

    /** `updateSetting`, as a slider calls it. */
    method UpdateSetting(k: Setting, value: nat)
      requires Valid() && HasSlider(k) && value <= SliderMax
      modifies this
      ensures Valid()
      ensures settings == With(old(settings), k, value)
    {
      settings := With(settings, k, value);
    }

    /** The reset button: neutral settings, image untouched. */
    method Reset()
      requires Valid()
      modifies this
      ensures Valid() && settings == Defaults
    {
      settings := Defaults;
    }

    /** `handleSave`: bake the current settings into the image, unless the
        browser gives no 2D drawing context, in which case nothing is
        saved. With neutral settings the filter is the identity filter. */
    method Save(contextAvailable: bool) returns (bake: Option<Bake>)
      ensures bake.Some? <==> contextAvailable
      ensures bake.Some? ==> bake.value.source == imageSrc && bake.value.filter == FilterString(settings)
      ensures bake.Some? && settings == Defaults ==> bake.value.filter == IdentityFilter
    {
      if !contextAvailable {
        return None;
      }
      DefaultsFilterString();
      bake := Some(Bake(imageSrc, FilterString(settings)));
    }
  }
}
