/** CloneInfo at the level of values: what it reads from the source band,
    which of its blocks run, and the record each block leaves. The band's
    method in PamBand runs the same blocks through its own setters. */
module Cloning {
  import opened PamTypes
  import opened PamRecords

  /** What CloneInfo asks of the source band through its getters. A getter
      that answers with a pointer answers None for null. */
  datatype SourceBand = SourceBand(
    dataType: DataType,
    metadata: Option<seq<string>>,
    description: string,
    noData: Answer<Double>,
    noDataInt64: Answer<Int64>,
    noDataUInt64: Answer<UInt64>,
    categoryNames: Option<seq<string>>,
    offset: Answer<Double>,
    scale: Answer<Double>,
    unitType: string,
    colorInterp: ColorInterp,
    colorTable: Option<ColorTable>,
    defaultRat: Option<Rat>)

  /** The GCIF_* bits of nCloneFlags, one boolean each. */
  datatype CloneFlags = CloneFlags(
    metadata: bool, description: bool, noData: bool, categoryNames: bool,
    scaleOffset: bool, unitType: bool, colorInterp: bool, colorTable: bool,
    rat: bool, onlyIfMissing: bool)

  /** The test of the GCIF_ONLY_IF_MISSING nodata branch: the same value as a
      C double, or both NaN. */
  predicate SameNoData(a: Double, b: Double) {
    (IsNaN(a) && IsNaN(b)) || FEq(a, b)
  }

  /** The band already reports the source's nodata value, through the
      accessor of the source's type. */
  predicate ReportsSourceNoData(num: Numerics, dt: DataType, src: SourceBand, r: PamRecord) {
    match src.dataType
    case Int64Data =>
      NoDataAsInt64(dt, r).success && NoDataAsInt64(dt, r).value == src.noDataInt64.value
    case UInt64Data =>
      NoDataAsUInt64(dt, r).success && NoDataAsUInt64(dt, r).value == src.noDataUInt64.value
    case OtherData =>
      NoDataValue(num, r).success && SameNoData(NoDataValue(num, r).value, src.noData.value)
  }

  /** The nodata block, by the source's type: the 64-bit integer variants
      through their own accessors, anything else as a double. Under
      GCIF_ONLY_IF_MISSING the value is set only when this band does not
      already report it (through the accessor of the source's type, which on
      a band of another type reports nothing). */
  function CloneNoData(num: Numerics, dt: DataType, src: SourceBand, only: bool, r: PamRecord): (s: PamRecord)
    ensures SameExceptNoData(r, s)
    ensures r.Valid() ==> s.Valid()
  {
    match src.dataType
    case Int64Data =>
      var v := src.noDataInt64;
      var have := NoDataAsInt64(dt, r);
      if v.success && (!only || !have.success || have.value != v.value) then WithInt64NoData(r, v.value) else r
    case UInt64Data =>
      var v := src.noDataUInt64;
      var have := NoDataAsUInt64(dt, r);
      if v.success && (!only || !have.success || have.value != v.value) then WithUInt64NoData(r, v.value) else r
    case OtherData =>
      var v := src.noData;
      var have := NoDataValue(num, r);
      if v.success && (!only || !have.success || !SameNoData(have.value, v.value)) then WithRealNoData(r, v.value) else r
  }

  function CloneCategoryNames(src: SourceBand, only: bool, r: PamRecord): (s: PamRecord)
    ensures r.(categoryNames := s.categoryNames) == s
    ensures r.Valid() ==> s.Valid()
  {
    if src.categoryNames.Some? && (!only || r.categoryNames.None?) then WithCategoryNames(r, src.categoryNames) else r
  }

  /** Offset, then scale, each when the source reports it set and (under
      GCIF_ONLY_IF_MISSING) this band's value differs from it. */
  function CloneScaleOffset(src: SourceBand, only: bool, r: PamRecord): (s: PamRecord)
    ensures r.(offset := s.offset, scale := s.scale) == s
  {
    var r1 := if src.offset.success && (!only || !FEq(Offset(r).value, src.offset.value))
              then WithOffset(r, src.offset.value) else r;
    if src.scale.success && (!only || !FEq(Scale(r1).value, src.scale.value))
    then WithScale(r1, src.scale.value) else r1
  }

  /** A non-empty source unit, unless (under GCIF_ONLY_IF_MISSING) the units
      are equal ignoring case. */
  function CloneUnitType(src: SourceBand, only: bool, r: PamRecord): (s: PamRecord)
    ensures r.(unitType := s.unitType) == s
    ensures r.Valid() ==> s.Valid()
  {
    if |src.unitType| > 0 && (!only || !EqualNoCase(UnitType(r), src.unitType))
    then WithUnitType(r, Some(src.unitType)) else r
  }

  function CloneColorInterp(src: SourceBand, only: bool, r: PamRecord): (s: PamRecord)
    ensures r.(colorInterp := s.colorInterp) == s
  {
    if src.colorInterp != Undefined && (!only || src.colorInterp != r.colorInterp)
    then WithColorInterp(r, src.colorInterp) else r
  }

  function CloneColorTable(src: SourceBand, only: bool, r: PamRecord): (s: PamRecord)
    ensures r.(colorTable := s.colorTable, colorInterp := s.colorInterp) == s
  {
    if src.colorTable.Some? && (!only || r.colorTable.None?) then WithColorTable(r, src.colorTable) else r
  }

  /** A source table with rows or columns, unless (under
      GCIF_ONLY_IF_MISSING) this band has a table already. */
  function CloneRat(src: SourceBand, only: bool, r: PamRecord): (s: PamRecord)
    ensures r.(defaultRat := s.defaultRat) == s
  {
    if src.defaultRat.Some? && src.defaultRat.value.HasContent()
       && (!only || r.defaultRat.None?)
    then WithDefaultRat(r, src.defaultRat) else r
  }

  /** The record CloneInfo leaves, block by block in source order: first
      the values (nodata, category names, offset and scale, unit), then the
      palette (interpretation, color table) and the attribute table. */
  function ClonedRecord(num: Numerics, dt: DataType, src: SourceBand, f: CloneFlags, r: PamRecord): PamRecord {
    ClonedPalette(src, f, ClonedValues(num, dt, src, f, r))
  }

  function ClonedValues(num: Numerics, dt: DataType, src: SourceBand, f: CloneFlags, r: PamRecord): PamRecord {
    var only := f.onlyIfMissing;
    var r1 := if f.noData then CloneNoData(num, dt, src, only, r) else r;
    var r2 := if f.categoryNames then CloneCategoryNames(src, only, r1) else r1;
    var r3 := if f.scaleOffset then CloneScaleOffset(src, only, r2) else r2;
    if f.unitType then CloneUnitType(src, only, r3) else r3
  }

  function ClonedPalette(src: SourceBand, f: CloneFlags, r: PamRecord): PamRecord {
    var only := f.onlyIfMissing;
    var r5 := if f.colorInterp then CloneColorInterp(src, only, r) else r;
    var r6 := if f.colorTable then CloneColorTable(src, only, r5) else r5;
    if f.rat then CloneRat(src, only, r6) else r6
  }

  /** The band description CloneInfo leaves. */
  function ClonedDescription(src: SourceBand, f: CloneFlags, d: string): string {
    if f.description && |src.description| > 0 && (!f.onlyIfMissing || |d| == 0) then src.description else d
  }

  /** The metadata CloneInfo leaves: under GCIF_ONLY_IF_MISSING the source's
      list is copied only when the two lists differ in length. */
  function ClonedMetadata(src: SourceBand, f: CloneFlags, md: seq<string>): seq<string> {
    if f.metadata && src.metadata.Some? && (!f.onlyIfMissing || |md| != |src.metadata.value|)
    then src.metadata.value else md
  }

  /** Every flag on, overwrite mode. */
  const ALL_FLAGS: CloneFlags := CloneFlags(true, true, true, true, true, true, true, true, true, false)

  /** A full clone copies what the source reports: its nodata value through
      the accessor of its type, its category names, its offset and scale
      (each up to C equality), a non-empty unit, a defined interpretation, its
      color table (which makes the interpretation GCI_PaletteIndex) and a
      non-empty attribute table. */
  lemma FullCloneCopies(num: Numerics, dt: DataType, src: SourceBand, r: PamRecord)
    requires r.Valid()
    ensures var s := ClonedRecord(num, dt, src, ALL_FLAGS, r);
            s.Valid()
            && (src.dataType == Int64Data && src.noDataInt64.success ==>
                  s.noData == WithInt64NoData(r, src.noDataInt64.value).noData)
            && (src.dataType == UInt64Data && src.noDataUInt64.success ==>
                  s.noData == WithUInt64NoData(r, src.noDataUInt64.value).noData)
            && (src.dataType == OtherData && src.noData.success ==>
                  s.noData == WithRealNoData(r, src.noData.value).noData)
            && (src.categoryNames.Some? ==> s.categoryNames == Duplicate(src.categoryNames))
            && (src.offset.success ==> s.offset.isSet && (s.offset.value == src.offset.value || FEq(s.offset.value, src.offset.value)))
            && (src.scale.success ==> s.scale.isSet && (s.scale.value == src.scale.value || FEq(s.scale.value, src.scale.value)))
            && (|src.unitType| > 0 ==> s.unitType == Some(src.unitType))
            && (src.colorTable.Some? ==> s.colorTable == src.colorTable && s.colorInterp == PaletteIndex)
            && (src.colorTable.None? && src.colorInterp != Undefined ==> s.colorInterp == src.colorInterp)
            && ((src.defaultRat.Some? && src.defaultRat.value.HasContent())
                ==> s.defaultRat == src.defaultRat)
            && s.stats == r.stats && s.savedHistograms == r.savedHistograms && s.attached == r.attached
  {
  }

  /** GCIF_ONLY_IF_MISSING never replaces category names, a color table or
      an attribute table the band already has, and never re-sets a nodata
      value the band already reports (a NaN counting as equal to a NaN). */
  lemma OnlyIfMissingKeeps(num: Numerics, dt: DataType, src: SourceBand, f: CloneFlags, r: PamRecord)
    requires f.onlyIfMissing
    ensures var s := ClonedRecord(num, dt, src, f, r);
            (r.categoryNames.Some? ==> s.categoryNames == r.categoryNames)
            && (r.colorTable.Some? ==> s.colorTable == r.colorTable)
            && (r.defaultRat.Some? ==> s.defaultRat == r.defaultRat)
            && (ReportsSourceNoData(num, dt, src, r) ==> s.noData == r.noData)
  {
    ValuesOnlyIfMissing(num, dt, src, f, r);
    PaletteOnlyIfMissing(src, f, ClonedValues(num, dt, src, f, r));
  }

  lemma ValuesOnlyIfMissing(num: Numerics, dt: DataType, src: SourceBand, f: CloneFlags, r: PamRecord)
    requires f.onlyIfMissing
    ensures var v := ClonedValues(num, dt, src, f, r);
            v.colorTable == r.colorTable && v.defaultRat == r.defaultRat
            && (r.categoryNames.Some? ==> v.categoryNames == r.categoryNames)
            && (ReportsSourceNoData(num, dt, src, r) ==> v.noData == r.noData)
  {
    var r1 := if f.noData then CloneNoData(num, dt, src, true, r) else r;
    assert ReportsSourceNoData(num, dt, src, r) ==> r1 == r;
    var r2 := if f.categoryNames then CloneCategoryNames(src, true, r1) else r1;
    assert r1.categoryNames.Some? ==> r2 == r1;
  }

  lemma PaletteOnlyIfMissing(src: SourceBand, f: CloneFlags, v: PamRecord)
    requires f.onlyIfMissing
    ensures var s := ClonedPalette(src, f, v);
            s.noData == v.noData && s.categoryNames == v.categoryNames
            && (v.colorTable.Some? ==> s.colorTable == v.colorTable)
            && (v.defaultRat.Some? ==> s.defaultRat == v.defaultRat)
  {
  }

  /** Cloning again from the same source in GCIF_ONLY_IF_MISSING mode after a
      full clone changes nothing, unless the source's color table and its
      interpretation disagree (the second pass then restores the source's
      interpretation over the palette one). */
  lemma RecloneIsStable(num: Numerics, dt: DataType, src: SourceBand, r: PamRecord)
    requires r.Valid()
    requires src.colorTable.None? || src.colorInterp == Undefined || src.colorInterp == PaletteIndex
    ensures var s := ClonedRecord(num, dt, src, ALL_FLAGS, r);
            ClonedRecord(num, dt, src, ALL_FLAGS.(onlyIfMissing := true), s) == s
  {
    var s1 := CloneNoData(num, dt, src, false, r);
    var s2 := CloneCategoryNames(src, false, s1);
    var s3 := CloneScaleOffset(src, false, s2);
    var s4 := CloneUnitType(src, false, s3);
    var s5 := CloneColorInterp(src, false, s4);
    var s6 := CloneColorTable(src, false, s5);
    var s := CloneRat(src, false, s6);
    assert s.noData == s1.noData;
    NoDataStable(num, dt, src, r, s);
    assert s.categoryNames == s2.categoryNames;
    assert CloneCategoryNames(src, true, s) == s;
    assert s.offset == s3.offset && s.scale == s3.scale;
    ScaleOffsetStable(src, s2, s);
    assert s.unitType == s4.unitType;
    EqualNoCaseReflexive(src.unitType);
    assert CloneUnitType(src, true, s) == s;
    assert src.colorInterp != Undefined ==> s.colorInterp == src.colorInterp;
    assert CloneColorInterp(src, true, s) == s;
    assert CloneColorTable(src, true, s) == s;
    assert CloneRat(src, true, s) == s;
  }

  /** A record that holds the nodata value a full clone stored needs no
      second pass. */
  lemma NoDataStable(num: Numerics, dt: DataType, src: SourceBand, r: PamRecord, x: PamRecord)
    requires x.noData == CloneNoData(num, dt, src, false, r).noData
    ensures CloneNoData(num, dt, src, true, x) == x
  {
    if src.dataType == OtherData && src.noData.success {
      RealNoDataGetter(num, x, src.noData.value);
      FEqReflexive(src.noData.value);
      assert NoDataValue(num, x) == Answer(src.noData.value, true);
    }
  }

  /** Likewise for the offset and the scale. */
  lemma ScaleOffsetStable(src: SourceBand, r: PamRecord, x: PamRecord)
    requires x.offset == CloneScaleOffset(src, false, r).offset
    requires x.scale == CloneScaleOffset(src, false, r).scale
    ensures CloneScaleOffset(src, true, x) == x
  {
    FEqReflexive(src.offset.value);
    FEqReflexive(src.scale.value);
  }
}
