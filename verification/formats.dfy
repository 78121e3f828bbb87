/**
 * The print formats the customizer offers: the table of identifiers, labels
 * and unit prices, the label and price a cart line receives, and the width
 * and height a fixed format's identifier ("WxH", in centimetres) encodes.
 * Prices are euro cents.
 */
module Formats {
  import opened JsText

  datatype FormatSpec = FormatSpec(id: string, caption: string, priceCents: nat)

  const CustomId: string := "custom"

  /** The `formats` table, in the order the customizer lists it. */
  const Table: seq<FormatSpec> := [
    FormatSpec("9x13", "9x13 cm", 70),
    FormatSpec("10x15", "10x15 cm", 75),
    FormatSpec("11x15", "11x15 cm", 80),
    FormatSpec("13x13", "13x13 cm", 85),
    FormatSpec("13x18", "13x18 cm", 90),
    FormatSpec("15x15", "15x15 cm", 95),
    FormatSpec("15x20", "15x20 cm", 100),
    FormatSpec("20x20", "20x20 cm", 120),
    FormatSpec(CustomId, "Personalizado", 150)
  ]

  /** The format selected when the customizer opens. */
  const DefaultId: string := "11x15"

  predicate IsTableId(id: string) {
    exists i :: 0 <= i < |Table| && Table[i].id == id
  }

  /** `fs.find(f => f.id === id)`: the first entry with that identifier, if any. */
  function Find(fs: seq<FormatSpec>, id: string): (r: Option<FormatSpec>)
    ensures r.Some? ==> r.value in fs && r.value.id == id
    ensures r.None? <==> forall i :: 0 <= i < |fs| ==> fs[i].id != id
    ensures fs != [] && fs[0].id == id ==> r == Some(fs[0])
  {
    if fs == [] then None
    else if fs[0].id == id then Some(fs[0])
    else Find(fs[1..], id)
  }

  /** No two table entries share an identifier, so `find` is unambiguous. */
  lemma TableIdsUnique()
    ensures forall i, j :: 0 <= i < j < |Table| ==> Table[i].id != Table[j].id
  {
  }

  /** `getFormatPrice`: the unit price of a format, 0 for an unknown one. */
  function Price(id: string): (cents: nat)
    ensures IsTableId(id) <==> cents > 0
  {
    match Find(Table, id)
    case Some(f) => f.priceCents
    case None => 0
  }

  /** `getFormatLabel`, with the custom width and height as typed. */
  function Label(id: string, customWidth: string, customHeight: string): (lbl: string)
    ensures id == CustomId ==> |lbl| == |"Personalizado ()x cm"| + |customWidth| + |customHeight|
    ensures id == CustomId ==>
      && lbl[..15] == "Personalizado ("
      && lbl[15..15 + |customWidth|] == customWidth
      && lbl[15 + |customWidth|] == 'x'
      && lbl[16 + |customWidth|..16 + |customWidth| + |customHeight|] == customHeight
      && lbl[|lbl| - 4..] == " cm)"
    ensures id != CustomId && !IsTableId(id) ==> lbl == id
  {
    if id == CustomId then
      "Personalizado (" + customWidth + "x" + customHeight + " cm)"
    else
      match Find(Table, id)
      case Some(f) => if f.caption != "" then f.caption else id
      case None => id
  }

  /** Every table entry has its listed price; the custom format costs 1.50
      whatever its dimensions. */
  lemma PriceOfEveryEntry(i: nat)
    requires i < |Table|
    ensures Price(Table[i].id) == Table[i].priceCents
  {
    TableIdsUnique();
    FindInTable(i);
  }

  /** A fixed format's label is its identifier followed by " cm". */
  lemma LabelOfFixedFormat(i: nat, customWidth: string, customHeight: string)
    requires i < |Table| && Table[i].id != CustomId
    ensures Label(Table[i].id, customWidth, customHeight) == Table[i].id + " cm"
  {
    TableIdsUnique();
    FindInTable(i);
    CaptionIsIdInCm(i);
  }

  lemma CaptionIsIdInCm(i: nat)
    requires i < |Table| && Table[i].id != CustomId
    ensures Table[i].caption == Table[i].id + " cm"
  {
    var t := Table[i];
    if i == 0 { assert t.caption == "9x13" + " cm"; }
    else if i == 1 { assert t.caption == "10x15" + " cm"; }
    else if i == 2 { assert t.caption == "11x15" + " cm"; }
    else if i == 3 { assert t.caption == "13x13" + " cm"; }
    else if i == 4 { assert t.caption == "13x18" + " cm"; }
    else if i == 5 { assert t.caption == "15x15" + " cm"; }
    else if i == 6 { assert t.caption == "15x20" + " cm"; }
    else if i == 7 { assert t.caption == "20x20" + " cm"; }
  }

  /** Looking up the identifier of entry `i` finds entry `i`. */
  lemma FindInTable(i: nat)
    requires i < |Table|
    requires forall j, k :: 0 <= j < k < |Table| ==> Table[j].id != Table[k].id
    ensures Find(Table, Table[i].id) == Some(Table[i])
  {
    FindUnique(Table, i);
  }

  lemma {:induction false} FindUnique(fs: seq<FormatSpec>, i: nat)
    requires i < |fs|
    requires forall j, k :: 0 <= j < k < |fs| ==> fs[j].id != fs[k].id
    ensures Find(fs, fs[i].id) == Some(fs[i])
  {
    if i > 0 {
      assert fs[0].id != fs[i].id;
      assert fs[1..][i - 1] == fs[i];
      FindUnique(fs[1..], i - 1);
    }
  }

  /**
   * The custom label records the dimensions unambiguously: dimensions typed
   * into a number field contain no 'x', and two such pairs with the same
   * label are the same pair.
   */
  lemma CustomLabelDeterminesDimensions(w1: string, h1: string, w2: string, h2: string)
    requires 'x' !in w1 && 'x' !in w2
    requires Label(CustomId, w1, h1) == Label(CustomId, w2, h2)
    ensures w1 == w2 && h1 == h2
  {
    var l := Label(CustomId, w1, h1);
    var s := l[15..];
    assert s[..|w1|] == l[15..15 + |w1|] && s[..|w2|] == l[15..15 + |w2|];
    FirstXAt(s, w1);
    FirstXAt(s, w2);
  }

  /** In a text that starts with `a`, an 'x'-free word, followed by 'x',
      the first 'x' is at `|a|`. */
  lemma FirstXAt(s: string, a: string)
    requires |a| < |s| && s[..|a|] == a && 'x' !in a && s[|a|] == 'x'
    ensures IndexOf(s, 'x') == |a|
  {
  }

  /**
   * `[w, h] = id.split('x').map(Number)` for the identifiers of fixed
   * formats: the whole numbers before the first 'x' and between it and the
   * next one. `None` stands for a part that is not a number (NaN) or a
   * missing height.
   */
  function ParseDims(id: string): (r: Option<(nat, nat)>)
    ensures r.Some? ==> 'x' in id
  {
    var i := IndexOf(id, 'x');
    if i == |id| then None
    else
      var rest := id[i + 1..];
      var j := IndexOf(rest, 'x');
      var w := id[..i];
      var h := rest[..j];
      if AllDigits(w) && AllDigits(h) then Some((DigitsValue(w), DigitsValue(h))) else None
  }

  /** The dimensions each fixed format prints at, in table order. */
  const FixedDims: seq<(nat, nat)> := [(9, 13), (10, 15), (11, 15), (13, 13), (13, 18), (15, 15), (15, 20), (20, 20)]

  /** Every fixed identifier parses to its two positive dimensions, so the
      initial crop rectangle is always defined for a fixed format. */
  lemma FixedFormatDims(i: nat)
    requires i < |FixedDims|
    ensures i < |Table| && Table[i].id != CustomId
    ensures ParseDims(Table[i].id) == Some(FixedDims[i])
    ensures FixedDims[i].0 > 0 && FixedDims[i].1 > 0
  {
    if i == 0 { assert Table[0].id == "9x13"; Parse9x13(); }
    else if i == 1 { assert Table[1].id == "10x15"; Parse10x15(); }
    else if i == 2 { assert Table[2].id == "11x15"; Parse11x15(); }
    else if i == 3 { assert Table[3].id == "13x13"; Parse13x13(); }
    else if i == 4 { assert Table[4].id == "13x18"; Parse13x18(); }
    else if i == 5 { assert Table[5].id == "15x15"; Parse15x15(); }
    else if i == 6 { assert Table[6].id == "15x20"; Parse15x20(); }
    else { assert Table[7].id == "20x20"; Parse20x20(); }
  }

  lemma Parse9x13()
    ensures ParseDims("9x13") == Some((9, 13))
  {
    DimsOf('9', "13", "9x13");
  }

  lemma Parse10x15()
    ensures ParseDims("10x15") == Some((10, 15))
  {
    DimsOf2("10", "15", "10x15");
  }

  lemma Parse11x15()
    ensures ParseDims("11x15") == Some((11, 15))
  {
    DimsOf2("11", "15", "11x15");
  }

  lemma Parse13x13()
    ensures ParseDims("13x13") == Some((13, 13))
  {
    DimsOf2("13", "13", "13x13");
  }

  lemma Parse13x18()
    ensures ParseDims("13x18") == Some((13, 18))
  {
    DimsOf2("13", "18", "13x18");
  }

  lemma Parse15x15()
    ensures ParseDims("15x15") == Some((15, 15))
  {
    DimsOf2("15", "15", "15x15");
  }

  lemma Parse15x20()
    ensures ParseDims("15x20") == Some((15, 20))
  {
    DimsOf2("15", "20", "15x20");
  }

  lemma Parse20x20()
    ensures ParseDims("20x20") == Some((20, 20))
  {
    DimsOf2("20", "20", "20x20");
  }

  /** A two-digit string denotes the number it reads as. */
  lemma TwoDigits(s: string)
    requires |s| == 2 && AllDigits(s)
    ensures DigitsValue(s) == 10 * ((s[0] as int) - ('0' as int)) + ((s[1] as int) - ('0' as int))
  {
    var first := s[..|s| - 1];
    assert first[..|first| - 1] == [] && first[|first| - 1] == s[0];
    assert DigitsValue(first) == (s[0] as int) - ('0' as int);
  }

  lemma DimsOf(w: char, h: string, id: string)
    requires IsDigit(w) && |h| == 2 && AllDigits(h) && id == [w] + "x" + h
    ensures ParseDims(id) == Some(((w as int) - ('0' as int), 10 * ((h[0] as int) - ('0' as int)) + ((h[1] as int) - ('0' as int))))
  {
    Dims([w], h, id);
    TwoDigits(h);
    assert [w][..0] == [];
  }

  lemma DimsOf2(w: string, h: string, id: string)
    requires |w| == 2 && AllDigits(w) && |h| == 2 && AllDigits(h) && id == w + "x" + h
    ensures ParseDims(id) == Some((10 * ((w[0] as int) - ('0' as int)) + ((w[1] as int) - ('0' as int)),
                                   10 * ((h[0] as int) - ('0' as int)) + ((h[1] as int) - ('0' as int))))
  {
    Dims(w, h, id);
    TwoDigits(w);
    TwoDigits(h);
  }

  /** An identifier "WxH" made of two digit strings parses to their values. */
  lemma Dims(w: string, h: string, id: string)
    requires AllDigits(w) && AllDigits(h) && id == w + "x" + h
    ensures ParseDims(id) == Some((DigitsValue(w), DigitsValue(h)))
  {
    assert 'x' !in w && 'x' !in h by {
      assert !IsDigit('x');
    }
    assert id == w + ("x" + h);
    IndexOfAt(w, "x" + h);
    assert IndexOf(id, 'x') == |w|;
    assert id[..|w|] == w;
    assert id[|w| + 1..] == h;
    assert h + [] == h;
    IndexOfAt(h, []);
    assert IndexOf(h, 'x') == |h|;
    assert h[..|h|] == h;
  }

  /** The first 'x' of `a + rest` is at `|a|` when `a` has none and `rest` starts with one. */
  lemma {:induction false} IndexOfAt(a: string, rest: string)
    requires 'x' !in a && (rest == [] || rest[0] == 'x')
    ensures IndexOf(a + rest, 'x') == |a|
  {
    if a == [] {
      assert a + rest == rest;
    } else {
      assert (a + rest)[0] == a[0] && (a + rest)[1..] == a[1..] + rest;
      assert a[0] in a;
      assert forall c :: c in a[1..] ==> c in a;
      IndexOfAt(a[1..], rest);
    }
  }
}
