/** The <PAMRasterBand> description tree at the level of its fields: what
    SerializeToXML writes for a record (a child only for a field that is not
    at its default) and what XMLInit makes of a tree. */
module Description {
  import opened PamTypes
  import opened Decimal
  import opened Histograms
  import opened PamRecords

  /** The text of <NoDataValue>, by the way it was written: "nan" or
      printf("%.14E", d) for a real value, or any other text (the decimal
      integers of the 64-bit variants among them). */
  datatype NoDataText = Scientific(d: Double) | Plain(text: string)

  /** <NoDataValue> and the bytes decoded from its le_hex_equiv attribute. */
  datatype NoDataNode = NoDataNode(text: NoDataText, leHex: Option<seq<Byte>>)

  /** The first child of a <Category> element: none, a text node, or a node
      of another kind. */
  datatype CategoryContent = NoChild | TextChild(text: string) | OtherChild

  /** A child of <CategoryNames>: whether it is an element, its name, its
      first child. */
  datatype CategoryNode = CategoryNode(isElement: bool, name: string, content: CategoryContent)

  /** A child of <ColorTable>: whether it is an element, its name, and the
      texts of its c1 .. c4 attributes. */
  datatype EntryNode = EntryNode(isElement: bool, name: string,
                                 c1: Option<string>, c2: Option<string>,
                                 c3: Option<string>, c4: Option<string>)

  /** A <PAMRasterBand> tree by the first child of each name. A real child is
      held as the double that CPLAtof reads from its text; ColorInterp as the
      interpretation its name stands for; Histograms, the attribute table and
      the metadata as the values they carry. */
  datatype BandTree = BandTree(
    band: Option<string>,
    description: Option<string>,
    noDataValue: Option<NoDataNode>,
    unitType: Option<string>,
    offset: Option<Double>,
    scale: Option<Double>,
    colorInterp: Option<ColorInterp>,
    categoryNames: Option<seq<CategoryNode>>,
    colorTable: Option<seq<EntryNode>>,
    minimum: Option<Double>,
    maximum: Option<Double>,
    mean: Option<Double>,
    standardDeviation: Option<Double>,
    histograms: Option<seq<HistItem>>,
    rat: Option<Rat>,
    metadata: Option<seq<string>>)

  function Present<T>(o: Option<T>): nat { if o.Some? then 1 else 0 }

  /** The number of children of the root (the #band attribute is one). */
  function ChildCount(t: BandTree): nat {
    Present(t.band) + Present(t.description) + Present(t.noDataValue) + Present(t.unitType)
      + Present(t.offset) + Present(t.scale) + Present(t.colorInterp) + Present(t.categoryNames)
      + Present(t.colorTable) + Present(t.minimum) + Present(t.maximum) + Present(t.mean)
      + Present(t.standardDeviation) + Present(t.histograms) + Present(t.rat) + Present(t.metadata)
  }

  /** Whether le_hex_equiv is written beside a real nodata value: when the
      value is not integral (NaN included) or the %.14E text does not read
      back equal to it. */
  predicate NeedsHex(num: Numerics, d: Double) {
    !IsIntegral(d) || !FEq(d, num.scientific14(d))
  }

  function CategoryNodes(names: seq<string>): (nodes: seq<CategoryNode>)
    ensures |nodes| == |names|
  {
    if names == [] then [] else [CategoryNode(true, "Category", TextChild(names[0]))] + CategoryNodes(names[1..])
  }

  function EntryNodes(entries: seq<ColorEntry>): (nodes: seq<EntryNode>)
    ensures |nodes| == |entries|
  {
    if entries == [] then []
    else
      var e := entries[0];
      [EntryNode(true, "Entry", Some(SignedDecimalString(e.c1)), Some(SignedDecimalString(e.c2)),
                 Some(SignedDecimalString(e.c3)), Some(SignedDecimalString(e.c4)))]
        + EntryNodes(entries[1..])
  }

  function EncodedNoData(num: Numerics, r: PamRecord): Option<NoDataNode> {
    var nd := r.noData;
    if nd.realSet then
      Some(NoDataNode(Scientific(nd.realValue),
                      if NeedsHex(num, nd.realValue) then Some(LittleEndianBytes(nd.realValue)) else None))
    else if nd.int64Set then Some(NoDataNode(Plain(SignedDecimalString(nd.int64Value)), None))
    else if nd.uint64Set then Some(NoDataNode(Plain(DecimalString(nd.uint64Value)), None))
    else None
  }

  /** The tree SerializeToXML builds before deciding whether to keep it. */
  function Encode(num: Numerics, r: PamRecord, bandNumber: int, description: string,
                  metadata: seq<string>): BandTree
  {
    BandTree(
      if bandNumber > 0 then Some(SignedDecimalString(bandNumber)) else None,
      if |description| > 0 then Some(description) else None,
      EncodedNoData(num, r),
      r.unitType,
      if !FEq(r.offset.value, ZERO) then Some(num.general16(r.offset.value)) else None,
      if !FEq(r.scale.value, ONE) then Some(num.general16(r.scale.value)) else None,
      if r.colorInterp != Undefined then Some(r.colorInterp) else None,
      if r.categoryNames.Some? then Some(CategoryNodes(r.categoryNames.value)) else None,
      if r.colorTable.Some? then Some(EntryNodes(r.colorTable.value.entries)) else None,
      if r.stats.haveMinMax then Some(num.general16(r.stats.min)) else None,
      if r.stats.haveMinMax then Some(num.general16(r.stats.max)) else None,
      if r.stats.haveStats then Some(num.general16(r.stats.mean)) else None,
      if r.stats.haveStats then Some(num.general16(r.stats.stdDev)) else None,
      r.savedHistograms,
      SerializedRat(r.defaultRat),
      if metadata != [] then Some(metadata) else None)
  }

  /** The <GDALRasterAttributeTable> child: written only for a table that
      Serialize turns into a node. */
  function SerializedRat(rat: Option<Rat>): (c: Option<Rat>)
    ensures c.Some? <==> rat.Some? && rat.value.HasContent()
    ensures c.Some? ==> c == rat
  {
    if rat.Some? && rat.value.HasContent() then rat else None
  }

  /** SerializeToXML for a band with a record: the tree, or None when the
      root would have fewer than two children (nothing but #band). */
  function Serialized(num: Numerics, r: PamRecord, bandNumber: int, description: string,
                      metadata: seq<string>): (t: Option<BandTree>)
    ensures t.Some? ==> ChildCount(t.value) >= 2
  {
    var t := Encode(num, r, bandNumber, description, metadata);
    if ChildCount(t) < 2 then None else Some(t)
  }

  /** A record with every field at its default, on a band with no
      description and no metadata, serializes to nothing; so does any record
      whose only non-default field would be the one child of a band without a
      number. */
  lemma DefaultsSerializeToNothing(num: Numerics, attached: bool, bandNumber: int)
    ensures Serialized(num, DefaultRecord(attached), bandNumber, "", []) == None
  {
    assert FEq(ONE, ONE) && FEq(ZERO, ZERO);
  }

  /** Sparse encoding: a field is written exactly when it is not at its
      default, and the tree is kept exactly when it has two children. */
  lemma EncodingIsSparse(num: Numerics, r: PamRecord, bandNumber: int, description: string,
                         metadata: seq<string>)
    requires r.Valid()
    ensures var t := Encode(num, r, bandNumber, description, metadata);
            (t.noDataValue.Some? <==> r.noData.Kinds() == 1)
            && (t.offset.Some? <==> !FEq(r.offset.value, ZERO))
            && (t.scale.Some? <==> !FEq(r.scale.value, ONE))
            && (t.colorInterp.Some? <==> r.colorInterp != Undefined)
            && (t.minimum.Some? <==> r.stats.haveMinMax) && (t.maximum.Some? <==> r.stats.haveMinMax)
            && (t.mean.Some? <==> r.stats.haveStats) && (t.standardDeviation.Some? <==> r.stats.haveStats)
            && (t.description.Some? <==> description != "")
            && (t.metadata.Some? <==> metadata != [])
            && (t.rat.Some? <==> r.defaultRat.Some? && r.defaultRat.value.HasContent())
            && (Serialized(num, r, bandNumber, description, metadata).Some? <==> ChildCount(t) >= 2)
  {
  }

  /** The value XMLInit reads from the <NoDataValue> text with CPLAtof. */
  function ReadReal(num: Numerics, t: NoDataText): Double {
    match t
    case Scientific(d) => num.scientific14(d)
    case Plain(s) => num.decimalAsDouble(s)
  }

  /** The value XMLInit reads with strtoll. */
  function ReadInt64(num: Numerics, t: NoDataText): Int64 {
    match t
    case Scientific(d) => num.scientific14AsInt64(d)
    case Plain(s) => AtoLL(s)
  }

  /** The value XMLInit reads with strtoull. */
  function ReadUInt64(num: Numerics, t: NoDataText): UInt64 {
    match t
    case Scientific(d) => num.scientific14AsUInt64(d)
    case Plain(s) => StrToULL(s)
  }

  /** XMLInit's nodata rule: the le_hex_equiv bytes first, whatever the band
      type, when there are exactly eight of them; the text read as a double
      when the bytes are malformed; without bytes, the text read as the
      band's type asks. */
  function DecodeNoData(num: Numerics, node: NoDataNode, r: PamRecord, dt: DataType): (s: PamRecord)
    ensures node.leHex.Some? ==> s.noData.realSet
    ensures node.leHex.Some? && |node.leHex.value| == 8 ==> s.noData.realValue == FromLittleEndian(node.leHex.value)
    ensures node.leHex.Some? && |node.leHex.value| != 8 ==> s.noData.realValue == ReadReal(num, node.text)
    ensures node.leHex.None? && dt == Int64Data ==> s.noData.int64Set && s.noData.int64Value == ReadInt64(num, node.text)
    ensures node.leHex.None? && dt == UInt64Data ==> s.noData.uint64Set && s.noData.uint64Value == ReadUInt64(num, node.text)
    ensures node.leHex.None? && dt == OtherData ==> s.noData.realSet && s.noData.realValue == ReadReal(num, node.text)
    ensures s.noData.Valid() && s.noData.Kinds() == 1 && SameExceptNoData(r, s)
  {
    if node.leHex.Some? then
      if |node.leHex.value| == 8 then WithRealNoData(r, FromLittleEndian(node.leHex.value))
      else WithRealNoData(r, ReadReal(num, node.text))
    else if dt == Int64Data then WithInt64NoData(r, ReadInt64(num, node.text))
    else if dt == UInt64Data then WithUInt64NoData(r, ReadUInt64(num, node.text))
    else WithRealNoData(r, ReadReal(num, node.text))
  }

  /** A <Category> child XMLInit keeps: an element named Category (in any
      case) whose first child, if any, is text. */
  predicate AcceptedCategory(n: CategoryNode) {
    n.isElement && EqualNoCase(n.name, "Category") && !n.content.OtherChild?
  }

  function CategoryText(n: CategoryNode): string {
    if n.content.TextChild? then n.content.text else ""
  }

  /** The names XMLInit collects, in order: one per accepted child, the empty
      string for an element without a child. */
  function CategoryList(nodes: seq<CategoryNode>): (names: seq<string>)
    ensures |names| <= |nodes|
  {
    if nodes == [] then []
    else (if AcceptedCategory(nodes[0]) then [CategoryText(nodes[0])] else []) + CategoryList(nodes[1..])
  }

  /** Every child of an accepted kind gives one name, in order, and nothing
      else does. */
  lemma {:induction false} CategoryListAccepted(nodes: seq<CategoryNode>)
    requires forall i :: 0 <= i < |nodes| ==> AcceptedCategory(nodes[i])
    ensures CategoryList(nodes) == seq(|nodes|, i requires 0 <= i < |nodes| => CategoryText(nodes[i]))
  {
    if nodes != [] {
      CategoryListAccepted(nodes[1..]);
    }
  }

  /** An <Entry> child XMLInit reads. */
  predicate AcceptedEntry(n: EntryNode) {
    n.isElement && EqualNoCase(n.name, "Entry")
  }

  /** An entry read with atoi and cast to short; c1 .. c3 default to 0 and c4
      to 255. */
  function EntryValue(n: EntryNode): ColorEntry {
    ColorEntry(ToShort(AtoI(n.c1.GetOr("0"))), ToShort(AtoI(n.c2.GetOr("0"))),
               ToShort(AtoI(n.c3.GetOr("0"))), ToShort(AtoI(n.c4.GetOr("255"))))
  }

  function EntryList(nodes: seq<EntryNode>): (entries: seq<ColorEntry>)
    ensures |entries| <= |nodes|
  {
    if nodes == [] then []
    else (if AcceptedEntry(nodes[0]) then [EntryValue(nodes[0])] else []) + EntryList(nodes[1..])
  }

  /** A missing c4 reads as an opaque 255, a missing c1 .. c3 as 0. */
  lemma EntryDefaults(n: EntryNode)
    ensures n.c4.None? ==> EntryValue(n).c4 == 255
    ensures n.c1.None? && n.c2.None? && n.c3.None? ==>
              EntryValue(n).c1 == 0 && EntryValue(n).c2 == 0 && EntryValue(n).c3 == 0
  {
    assert DecimalString(2) == "2";
    assert DecimalString(25) == "25";
    assert DecimalString(255) == "255";
    ReadInt32(255, "");
    assert "255" + "" == "255";
    assert DecimalString(0) == "0";
    ReadInt32(0, "");
    assert "0" + "" == "0";
  }

  /** XMLInit's blocks, one per child it looks for, each changing only the
      fields it names. */
  function DecodeNoDataStep(num: Numerics, t: BandTree, r: PamRecord, dt: DataType): (s: PamRecord)
    ensures s.(noData := r.noData) == r
  {
    if t.noDataValue.Some? then DecodeNoData(num, t.noDataValue.value, r, dt) else r
  }

  /** Offset and scale are set together: when either child is present both
      setters run, a missing offset reading as 0 and a missing scale as 1. */
  function DecodeScaling(t: BandTree, r: PamRecord): (s: PamRecord)
    ensures s.(offset := r.offset, scale := r.scale) == r
  {
    if t.offset.Some? || t.scale.Some? then WithScale(WithOffset(r, t.offset.GetOr(ZERO)), t.scale.GetOr(ONE))
    else r
  }

  function DecodeUnitType(t: BandTree, r: PamRecord): (s: PamRecord)
    ensures s.(unitType := r.unitType) == r
  {
    if t.unitType.Some? then WithUnitType(r, t.unitType) else r
  }

  function DecodeInterp(t: BandTree, r: PamRecord): (s: PamRecord)
    ensures s.(colorInterp := r.colorInterp) == r
  {
    if t.colorInterp.Some? then WithColorInterp(r, t.colorInterp.value) else r
  }

  function DecodeCategories(t: BandTree, r: PamRecord): (s: PamRecord)
    ensures s.(categoryNames := r.categoryNames) == r
  {
    if t.categoryNames.Some? then WithCategoryNames(r, Some(CategoryList(t.categoryNames.value))) else r
  }

  function DecodeColorTable(t: BandTree, r: PamRecord): (s: PamRecord)
    ensures s.(colorTable := r.colorTable, colorInterp := r.colorInterp) == r
  {
    if t.colorTable.Some? then WithColorTable(r, Some(ColorTable(EntryList(t.colorTable.value)))) else r
  }

  /** Minimum and Maximum are taken only as a pair, and so are Mean and
      StandardDeviation. */
  function DecodeStats(t: BandTree, r: PamRecord): (s: PamRecord)
    ensures s.(stats := r.stats) == r
  {
    var st := r.stats;
    var st1 := if t.minimum.Some? && t.maximum.Some?
               then st.(haveMinMax := true, min := t.minimum.value, max := t.maximum.value) else st;
    var st2 := if t.mean.Some? && t.standardDeviation.Some?
               then st1.(haveStats := true, mean := t.mean.value, stdDev := t.standardDeviation.value) else st1;
    r.(stats := st2)
  }

  function DecodeHistograms(t: BandTree, r: PamRecord): (s: PamRecord)
    ensures s.(savedHistograms := r.savedHistograms) == r
  {
    if t.histograms.Some? then r.(savedHistograms := t.histograms) else r
  }

  function DecodeRat(t: BandTree, r: PamRecord): (s: PamRecord)
    ensures s.(defaultRat := r.defaultRat) == r
  {
    if t.rat.Some? then r.(defaultRat := t.rat) else r
  }

  /** XMLInit applied to the record that PamInitialize left, block by block
      in source order; the description and the metadata are the band's, not
      the record's. */
  function DecodeRecord(num: Numerics, t: BandTree, r: PamRecord, dt: DataType): PamRecord {
    DecodeDirect(t, DecodeThroughSetters(num, t, r, dt))
  }

  /** The blocks XMLInit runs through the band's setters. */
  function DecodeThroughSetters(num: Numerics, t: BandTree, r: PamRecord, dt: DataType): PamRecord {
    DecodeColorTable(t, DecodeCategories(t, DecodeInterp(t, DecodeUnitType(t,
      DecodeScaling(t, DecodeNoDataStep(num, t, r, dt))))))
  }

  /** The blocks XMLInit writes straight into the record. */
  function DecodeDirect(t: BandTree, r: PamRecord): PamRecord {
    DecodeRat(t, DecodeHistograms(t, DecodeStats(t, r)))
  }

  /** The decoding rules: statistics only in pairs, histograms and the
      attribute table replaced wholesale, a color table (even an empty one)
      forcing the palette interpretation, and the record's link to its parent
      kept. */
  lemma DecodeRules(num: Numerics, t: BandTree, r: PamRecord, dt: DataType)
    ensures var s := DecodeRecord(num, t, r, dt);
            (s.stats.haveMinMax <==> r.stats.haveMinMax || (t.minimum.Some? && t.maximum.Some?))
            && (t.minimum.Some? && t.maximum.Some? ==> s.stats.min == t.minimum.value && s.stats.max == t.maximum.value)
            && (!(t.minimum.Some? && t.maximum.Some?) ==> s.stats.min == r.stats.min && s.stats.max == r.stats.max)
            && (s.stats.haveStats <==> r.stats.haveStats || (t.mean.Some? && t.standardDeviation.Some?))
            && (t.mean.Some? && t.standardDeviation.Some? ==>
                  s.stats.mean == t.mean.value && s.stats.stdDev == t.standardDeviation.value)
            && (!(t.mean.Some? && t.standardDeviation.Some?) ==> s.stats.mean == r.stats.mean && s.stats.stdDev == r.stats.stdDev)
            && s.savedHistograms == (if t.histograms.Some? then t.histograms else r.savedHistograms)
            && s.defaultRat == (if t.rat.Some? then t.rat else r.defaultRat)
            && (t.colorTable.Some? ==> s.colorInterp == PaletteIndex && s.colorTable.Some?)
            && s.attached == r.attached
  {
  }

  /** With either child present, both scalars end up set to the values read
      (0 for a missing offset, 1 for a missing scale) or to values equal to
      them as C doubles. */
  lemma DecodeOffsetScale(num: Numerics, t: BandTree, r: PamRecord, dt: DataType)
    requires t.offset.Some? || t.scale.Some?
    ensures var s := DecodeRecord(num, t, r, dt);
            s.offset.isSet && s.scale.isSet
            && (s.offset.value == t.offset.GetOr(ZERO) || FEq(s.offset.value, t.offset.GetOr(ZERO)))
            && (s.scale.value == t.scale.GetOr(ONE) || FEq(s.scale.value, t.scale.GetOr(ONE)))
  {
  }

  lemma {:induction false} CategoryRoundTrip(names: seq<string>)
    ensures CategoryList(CategoryNodes(names)) == names
  {
    if names != [] {
      EqualNoCaseReflexive("Category");
      assert CategoryNodes(names)[1..] == CategoryNodes(names[1..]);
      CategoryRoundTrip(names[1..]);
    }
  }

  /** A short written with %d comes back through atoi and the cast. */
  lemma ShortRoundTrip(c: Short)
    ensures ToShort(AtoI(SignedDecimalString(c))) == c
  {
    ReadInt32(c, "");
    assert SignedDecimalString(c) + "" == SignedDecimalString(c);
  }

  lemma {:induction false} ColorTableRoundTrip(entries: seq<ColorEntry>)
    ensures EntryList(EntryNodes(entries)) == entries
  {
    if entries != [] {
      var e := entries[0];
      EqualNoCaseReflexive("Entry");
      ShortRoundTrip(e.c1);
      ShortRoundTrip(e.c2);
      ShortRoundTrip(e.c3);
      ShortRoundTrip(e.c4);
      assert EntryNodes(entries)[1..] == EntryNodes(entries[1..]);
      ColorTableRoundTrip(entries[1..]);
    }
  }

  /** The nodata round trip, into any record. A real value comes back with
      its exact bit pattern (NaN payloads and the sign of zero included)
      whenever le_hex_equiv is written, in particular for every NaN and every
      non-integral value. Otherwise it comes back as a value equal to it as a
      C double on a band that is neither Int64 nor UInt64, while on an Int64
      or UInt64 band the text is read with strtoll or strtoull and comes back
      as that band's integer variant. A 64-bit integer value comes back
      exactly on a band of its own type.
      Without a nodata value the target's nodata fields are left alone. */
  lemma NoDataRoundTrip(num: Numerics, r: PamRecord, bandNumber: int, description: string,
                        metadata: seq<string>, dt: DataType, target: PamRecord)
    requires r.Valid()
    ensures var s := DecodeRecord(num, Encode(num, r, bandNumber, description, metadata), target, dt).noData;
            (r.noData.realSet && NeedsHex(num, r.noData.realValue) ==> s.realSet && s.realValue == r.noData.realValue)
            && (r.noData.realSet && !IsIntegral(r.noData.realValue) ==> s.realSet && s.realValue == r.noData.realValue)
            && (r.noData.realSet && IsNaN(r.noData.realValue) ==> s.realSet && s.realValue == r.noData.realValue)
            && (r.noData.realSet && !NeedsHex(num, r.noData.realValue) && dt == OtherData ==>
                  s.realSet && FEq(s.realValue, r.noData.realValue))
            && (r.noData.realSet && !NeedsHex(num, r.noData.realValue) && dt == Int64Data ==>
                  s.int64Set && !s.realSet && !s.uint64Set)
            && (r.noData.realSet && !NeedsHex(num, r.noData.realValue) && dt == UInt64Data ==>
                  s.uint64Set && !s.realSet && !s.int64Set)
            && (r.noData.int64Set && dt == Int64Data ==> s.int64Set && s.int64Value == r.noData.int64Value)
            && (r.noData.uint64Set && dt == UInt64Data ==> s.uint64Set && s.uint64Value == r.noData.uint64Value)
            && (r.noData.Kinds() == 0 ==> s == target.noData)
  {
    var t := Encode(num, r, bandNumber, description, metadata);
    DecodedNoDataIsStep(num, t, target, dt);
    var nd := r.noData;
    if nd.realSet {
      LittleEndianRoundTrip(nd.realValue);
    } else if nd.int64Set {
      ReadSignedDecimal(nd.int64Value, "");
      assert SignedDecimalString(nd.int64Value) + "" == SignedDecimalString(nd.int64Value);
    } else if nd.uint64Set {
      ReadUnsignedDecimal(nd.uint64Value, "");
      assert DecimalString(nd.uint64Value) + "" == DecimalString(nd.uint64Value);
    }
  }

  /** Only the nodata block of XMLInit touches the nodata fields. */
  lemma DecodedNoDataIsStep(num: Numerics, t: BandTree, r: PamRecord, dt: DataType)
    ensures DecodeRecord(num, t, r, dt).noData == DecodeNoDataStep(num, t, r, dt).noData
  {
  }

  /** The round trip of the other fields through a fresh record: unit,
      category names, color table, statistics flags, histograms and
      attribute table come back as they were; the interpretation comes back,
      except that a color table makes it GCI_PaletteIndex. */
  lemma FieldsRoundTrip(num: Numerics, r: PamRecord, bandNumber: int, description: string,
                        metadata: seq<string>, dt: DataType)
    requires r.Valid()
    ensures var s := DecodeRecord(num, Encode(num, r, bandNumber, description, metadata), DefaultRecord(true), dt);
            s.unitType == r.unitType
            && s.categoryNames == r.categoryNames
            && s.colorTable == r.colorTable
            && s.colorInterp == (if r.colorTable.Some? then PaletteIndex else r.colorInterp)
            && s.stats.haveMinMax == r.stats.haveMinMax && s.stats.haveStats == r.stats.haveStats
            && (r.stats.haveMinMax ==> s.stats.min == num.general16(r.stats.min)
                                       && s.stats.max == num.general16(r.stats.max))
            && (r.stats.haveStats ==> s.stats.mean == num.general16(r.stats.mean)
                                      && s.stats.stdDev == num.general16(r.stats.stdDev))
            && s.savedHistograms == r.savedHistograms
            && s.defaultRat == (if r.defaultRat.Some? && r.defaultRat.value.HasContent() then r.defaultRat else None)
  {
    var t := Encode(num, r, bandNumber, description, metadata);
    SetterBlocksRoundTrip(num, r, t, dt);
    DirectBlocksRoundTrip(num, r, t, DecodeThroughSetters(num, t, DefaultRecord(true), dt));
  }

  /** The part of the round trip written straight into the record. */
  lemma DirectBlocksRoundTrip(num: Numerics, r: PamRecord, t: BandTree, m: PamRecord)
    requires t.minimum == (if r.stats.haveMinMax then Some(num.general16(r.stats.min)) else None)
    requires t.maximum == (if r.stats.haveMinMax then Some(num.general16(r.stats.max)) else None)
    requires t.mean == (if r.stats.haveStats then Some(num.general16(r.stats.mean)) else None)
    requires t.standardDeviation == (if r.stats.haveStats then Some(num.general16(r.stats.stdDev)) else None)
    requires t.histograms == r.savedHistograms && t.rat == SerializedRat(r.defaultRat)
    requires m.stats == DefaultRecord(true).stats && m.savedHistograms == None && m.defaultRat == None
    ensures var s := DecodeDirect(t, m);
            s.stats.haveMinMax == r.stats.haveMinMax && s.stats.haveStats == r.stats.haveStats
            && (r.stats.haveMinMax ==> s.stats.min == num.general16(r.stats.min)
                                       && s.stats.max == num.general16(r.stats.max))
            && (r.stats.haveStats ==> s.stats.mean == num.general16(r.stats.mean)
                                      && s.stats.stdDev == num.general16(r.stats.stdDev))
            && s.savedHistograms == r.savedHistograms && s.defaultRat == SerializedRat(r.defaultRat)
            && s.(stats := m.stats, savedHistograms := m.savedHistograms, defaultRat := m.defaultRat) == m
  {
  }

  /** The part of the round trip that goes through the setters, for any tree
      whose unit, interpretation, category and color table children are the
      ones SerializeToXML writes for r. */
  lemma SetterBlocksRoundTrip(num: Numerics, r: PamRecord, t: BandTree, dt: DataType)
    requires r.Valid()
    requires t.unitType == r.unitType
    requires t.colorInterp == (if r.colorInterp != Undefined then Some(r.colorInterp) else None)
    requires t.categoryNames == (if r.categoryNames.Some? then Some(CategoryNodes(r.categoryNames.value)) else None)
    requires t.colorTable == (if r.colorTable.Some? then Some(EntryNodes(r.colorTable.value.entries)) else None)
    ensures var m := DecodeThroughSetters(num, t, DefaultRecord(true), dt);
            m.unitType == r.unitType && m.categoryNames == r.categoryNames && m.colorTable == r.colorTable
            && m.colorInterp == (if r.colorTable.Some? then PaletteIndex else r.colorInterp)
            && m.stats == DefaultRecord(true).stats && m.savedHistograms == None && m.defaultRat == None
  {
    if r.categoryNames.Some? {
      CategoryRoundTrip(r.categoryNames.value);
    }
    if r.colorTable.Some? {
      ColorTableRoundTrip(r.colorTable.value.entries);
    }
  }
}
