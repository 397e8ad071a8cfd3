/** The per-band PAM record (GDALRasterBandPamInfo): the value it holds, the
    updates the band's setters make to it and the answers its getters give.
    The record's fields are grouped as the source groups them by name: the
    three nodata variants, the offset and the scale, the statistics. */
module PamRecords {
  import opened PamTypes
  import opened Histograms

  /** The "unset" sentinels of the three nodata variants
      (GDAL_PAM_DEFAULT_NODATA_VALUE, ..._INT64 and ..._UINT64). */
  const DEFAULT_NODATA: Double := ZERO
  const DEFAULT_NODATA_INT64: Int64 := -TWO_63
  const DEFAULT_NODATA_UINT64: UInt64 := TWO_64 - 1

  /** The three nodata variants, as the source keeps them: three flag and
      value pairs (bNoDataValueSet / dfNoDataValue, ...AsInt64, ...AsUInt64). */
  datatype NoData = NoData(realSet: bool, realValue: Double,
                           int64Set: bool, int64Value: Int64,
                           uint64Set: bool, uint64Value: UInt64)
  {
    /** How many variants are set. */
    function Kinds(): nat {
      (if realSet then 1 else 0) + (if int64Set then 1 else 0) + (if uint64Set then 1 else 0)
    }

    /** At most one variant is set and the others hold their sentinels. */
    predicate Valid() {
      Kinds() <= 1
      && (!realSet ==> realValue == DEFAULT_NODATA)
      && (!int64Set ==> int64Value == DEFAULT_NODATA_INT64)
      && (!uint64Set ==> uint64Value == DEFAULT_NODATA_UINT64)
    }
  }

  /** What ResetNoDataValues leaves: every flag down, every value back to its
      sentinel. */
  const UNSET_NODATA: NoData :=
    NoData(false, DEFAULT_NODATA, false, DEFAULT_NODATA_INT64, false, DEFAULT_NODATA_UINT64)

  /** A flag and the double it guards (bOffsetSet / dfOffset, bScaleSet / dfScale). */
  datatype Scalar = Scalar(isSet: bool, value: Double)

  /** bHaveMinMax / dfMin / dfMax and bHaveStats / dfMean / dfStdDev. */
  datatype Stats = Stats(haveMinMax: bool, min: Double, max: Double,
                         haveStats: bool, mean: Double, stdDev: Double)

  /** A snapshot of the record. `attached` is poParentDS != nullptr; a null
      pointer is None. */
  datatype PamRecord = PamRecord(
    attached: bool,
    noData: NoData,
    offset: Scalar,
    scale: Scalar,
    unitType: Option<string>,
    colorInterp: ColorInterp,
    categoryNames: Option<seq<string>>,
    colorTable: Option<ColorTable>,
    defaultRat: Option<Rat>,
    stats: Stats,
    savedHistograms: Option<seq<HistItem>>)
  {
    /** What every operation keeps true: the nodata variants are valid, a unit
        type is never the empty string and a list of category names is never
        empty (both are stored as null instead). */
    predicate Valid() {
      noData.Valid() && unitType != Some("") && categoryNames != Some([])
    }
  }

  /** A freshly allocated GDALRasterBandPamInfo, linked to its parent or not. */
  function DefaultRecord(attached: bool): (r: PamRecord)
    ensures r.Valid() && r.noData.Kinds() == 0
    ensures r.attached == attached
  {
    PamRecord(attached, UNSET_NODATA, Scalar(false, ZERO), Scalar(false, ONE), None, Undefined,
              None, None, None, Stats(false, ZERO, ZERO, false, ZERO, ZERO), None)
  }

  /** ResetNoDataValues. */
  function ResetNoData(r: PamRecord): PamRecord {
    r.(noData := UNSET_NODATA)
  }

  /** SetNoDataValue on a band with a record. */
  function WithRealNoData(r: PamRecord, v: Double): PamRecord {
    r.(noData := UNSET_NODATA.(realSet := true, realValue := v))
  }

  /** SetNoDataValueAsInt64 on a band with a record. */
  function WithInt64NoData(r: PamRecord, v: Int64): PamRecord {
    r.(noData := UNSET_NODATA.(int64Set := true, int64Value := v))
  }

  /** SetNoDataValueAsUInt64 on a band with a record. */
  function WithUInt64NoData(r: PamRecord, v: UInt64): PamRecord {
    r.(noData := UNSET_NODATA.(uint64Set := true, uint64Value := v))
  }

  /** The same record up to its nodata fields. */
  predicate SameExceptNoData(a: PamRecord, b: PamRecord) {
    ResetNoData(a) == ResetNoData(b)
  }

  /** Nodata exclusivity: each of the three setters leaves exactly its own
      variant set, with the given value, the other two at their sentinels and
      the rest of the record as it was; deleting leaves none set. */
  lemma NoDataExclusive(r: PamRecord, d: Double, i: Int64, u: UInt64)
    requires r.Valid()
    ensures var s := WithRealNoData(r, d);
            s.Valid() && s.noData.Kinds() == 1 && s.noData.realSet && s.noData.realValue == d
            && s.noData.int64Value == DEFAULT_NODATA_INT64 && s.noData.uint64Value == DEFAULT_NODATA_UINT64
            && SameExceptNoData(r, s)
    ensures var s := WithInt64NoData(r, i);
            s.Valid() && s.noData.Kinds() == 1 && s.noData.int64Set && s.noData.int64Value == i
            && s.noData.realValue == DEFAULT_NODATA && s.noData.uint64Value == DEFAULT_NODATA_UINT64
            && SameExceptNoData(r, s)
    ensures var s := WithUInt64NoData(r, u);
            s.Valid() && s.noData.Kinds() == 1 && s.noData.uint64Set && s.noData.uint64Value == u
            && s.noData.realValue == DEFAULT_NODATA && s.noData.int64Value == DEFAULT_NODATA_INT64
            && SameExceptNoData(r, s)
    ensures var s := ResetNoData(r); s.Valid() && s.noData.Kinds() == 0 && SameExceptNoData(r, s)
  {
  }

  /** A getter's answer: the value and the *pbSuccess flag. */
  datatype Answer<T> = Answer(value: T, success: bool)

  /** GetNoDataValue: a 64-bit integer variant is reported as a double and
      always succeeds; otherwise success is bNoDataValueSet. */
  function NoDataValue(num: Numerics, r: PamRecord): Answer<Double> {
    if r.noData.int64Set then Answer(num.int64AsDouble(r.noData.int64Value), true)
    else if r.noData.uint64Set then Answer(num.uint64AsDouble(r.noData.uint64Value), true)
    else Answer(r.noData.realValue, r.noData.realSet)
  }

  /** GetNoDataValueAsInt64: fails with the sentinel unless the band is Int64. */
  function NoDataAsInt64(dt: DataType, r: PamRecord): Answer<Int64> {
    if dt != Int64Data then Answer(DEFAULT_NODATA_INT64, false)
    else Answer(r.noData.int64Value, r.noData.int64Set)
  }

  /** GetNoDataValueAsUInt64: fails with the sentinel unless the band is UInt64. */
  function NoDataAsUInt64(dt: DataType, r: PamRecord): Answer<UInt64> {
    if dt != UInt64Data then Answer(DEFAULT_NODATA_UINT64, false)
    else Answer(r.noData.uint64Value, r.noData.uint64Set)
  }

  /** The typed getters: reading back through the accessor that matches the
      band's type gives the value just set, with success; reading through a
      mismatched accessor fails with the sentinel, whatever is stored. */
  lemma TypedNoDataGetters(num: Numerics, dt: DataType, r: PamRecord, i: Int64, u: UInt64)
    ensures dt == Int64Data ==> NoDataAsInt64(dt, WithInt64NoData(r, i)) == Answer(i, true)
    ensures dt == UInt64Data ==> NoDataAsUInt64(dt, WithUInt64NoData(r, u)) == Answer(u, true)
    ensures dt != Int64Data ==> NoDataAsInt64(dt, r) == Answer(DEFAULT_NODATA_INT64, false)
    ensures dt != UInt64Data ==> NoDataAsUInt64(dt, r) == Answer(DEFAULT_NODATA_UINT64, false)
    ensures NoDataValue(num, WithInt64NoData(r, i)) == Answer(num.int64AsDouble(i), true)
    ensures NoDataValue(num, WithUInt64NoData(r, u)) == Answer(num.uint64AsDouble(u), true)
  {
  }

  /** GetNoDataValue succeeds exactly when some variant is set; after setting
      a real value it returns that value; after deleting it fails with the
      sentinel. */
  lemma RealNoDataGetter(num: Numerics, r: PamRecord, d: Double)
    ensures NoDataValue(num, r).success <==> r.noData.Kinds() > 0
    ensures NoDataValue(num, WithRealNoData(r, d)) == Answer(d, true)
    ensures NoDataValue(num, ResetNoData(r)) == Answer(DEFAULT_NODATA, false)
  {
  }

  /** C's `!set || old != new` of SetOffset and SetScale. */
  predicate ScalarChanges(s: Scalar, v: Double) {
    !s.isSet || !FEq(s.value, v)
  }

  /** SetOffset's update: only when unset or different. */
  function WithOffset(r: PamRecord, v: Double): PamRecord {
    if ScalarChanges(r.offset, v) then r.(offset := Scalar(true, v)) else r
  }

  /** SetScale's update: only when unset or different. */
  function WithScale(r: PamRecord, v: Double): PamRecord {
    if ScalarChanges(r.scale, v) then r.(scale := Scalar(true, v)) else r
  }

  /** GetOffset and GetScale. */
  function Offset(r: PamRecord): Answer<Double> { Answer(r.offset.value, r.offset.isSet) }
  function Scale(r: PamRecord): Answer<Double> { Answer(r.scale.value, r.scale.isSet) }

  /** After SetOffset(v), GetOffset gives v with success, or (when the stored
      value was already equal as a C double: the same value or the other
      zero) the record is unchanged; likewise for the scale. The other
      scalar is untouched. */
  lemma OffsetScaleRoundTrip(r: PamRecord, v: Double)
    ensures ScalarChanges(r.offset, v) ==> Offset(WithOffset(r, v)) == Answer(v, true)
    ensures !ScalarChanges(r.offset, v) ==>
              WithOffset(r, v) == r && Offset(r).success && FEq(Offset(r).value, v)
    ensures ScalarChanges(r.scale, v) ==> Scale(WithScale(r, v)) == Answer(v, true)
    ensures !ScalarChanges(r.scale, v) ==>
              WithScale(r, v) == r && Scale(r).success && FEq(Scale(r).value, v)
    ensures Scale(WithOffset(r, v)) == Scale(r) && Offset(WithScale(r, v)) == Offset(r)
  {
  }

  /** SetUnitType's update: a null or empty text clears the unit, any other
      text is copied. */
  function WithUnitType(r: PamRecord, s: Option<string>): PamRecord {
    if s.None? || s.value == "" then r.(unitType := None) else r.(unitType := s)
  }

  /** Whether SetUnitType marks the record dirty: clearing a unit that was
      there, or storing a text that differs from the stored one. */
  predicate UnitTypeChanges(r: PamRecord, s: Option<string>) {
    if s.None? || s.value == "" then r.unitType.Some? else r.unitType != s
  }

  /** GetUnitType: "" when no unit is stored. */
  function UnitType(r: PamRecord): string {
    r.unitType.GetOr("")
  }

  /** GetUnitType after SetUnitType gives the text set ("" for null), and the
      record is marked dirty exactly when that answer changes. */
  lemma UnitTypeRoundTrip(r: PamRecord, s: Option<string>)
    requires r.Valid()
    ensures UnitType(WithUnitType(r, s)) == s.GetOr("")
    ensures WithUnitType(r, s).Valid()
    ensures UnitTypeChanges(r, s) <==> UnitType(WithUnitType(r, s)) != UnitType(r)
  {
  }

  /** CSLDuplicate: a copy of the list, and null for a null or empty one. */
  function Duplicate(names: Option<seq<string>>): (d: Option<seq<string>>)
    ensures d != Some([])
    ensures names.Some? && names.value != [] ==> d == names
    ensures names.None? || names.value == [] ==> d.None?
  {
    if names.None? || names.value == [] then None else names
  }

  /** SetCategoryNames on a band with a record. */
  function WithCategoryNames(r: PamRecord, names: Option<seq<string>>): PamRecord {
    r.(categoryNames := Duplicate(names))
  }

  /** SetColorTable: a copy of the table, which makes the interpretation
      GCI_PaletteIndex; a null table clears the stored one and leaves the
      interpretation as it was. */
  function WithColorTable(r: PamRecord, t: Option<ColorTable>): PamRecord {
    if t.Some? then r.(colorTable := t, colorInterp := PaletteIndex) else r.(colorTable := None)
  }

  /** SetColorInterpretation on a band with a record. */
  function WithColorInterp(r: PamRecord, c: ColorInterp): PamRecord {
    r.(colorInterp := c)
  }

  /** SetDefaultRAT on a band with a record: a copy of the table, or null. */
  function WithDefaultRat(r: PamRecord, rat: Option<Rat>): PamRecord {
    r.(defaultRat := rat)
  }

  /** SetCategoryNames stores a copy of the list given, an empty list as
      null, and keeps the record valid. */
  lemma CategoryNamesCopy(r: PamRecord, names: Option<seq<string>>)
    requires r.Valid()
    ensures WithCategoryNames(r, names).Valid()
    ensures WithCategoryNames(r, names).categoryNames.GetOr([]) == names.GetOr([])
  {
  }

  /** SetColorTable stores the table given; a table forces the palette
      interpretation, a null table leaves the interpretation as it was. */
  lemma ColorTableForcesPalette(r: PamRecord, t: Option<ColorTable>)
    requires r.Valid()
    ensures WithColorTable(r, t).colorTable == t
    ensures t.Some? ==> WithColorTable(r, t).colorInterp == PaletteIndex
    ensures t.None? ==> WithColorTable(r, t).colorInterp == r.colorInterp
    ensures WithColorTable(r, t).Valid()
  {
  }

  /** PamInitialize, on the record: an attached record is kept; a band whose
      parent is not a PAM dataset keeps what it has; otherwise any unattached
      record is discarded and, if the parent has or can create its own PAM
      state, the band ends with a fresh record linked to the parent (made by
      the parent's initialisation or by the band itself), else with none. */
  function InitOutcome(r: Option<PamRecord>, parentIsPam: bool, parentHasPam: bool,
                       parentPamEnabled: bool): Option<PamRecord>
  {
    if r.Some? && r.value.attached then r
    else if !parentIsPam then r
    else if !(parentHasPam || parentPamEnabled) then None
    else Some(DefaultRecord(true))
  }

  /** Whether the parent holds PAM state after the band's PamInitialize. */
  function ParentAfterInit(r: Option<PamRecord>, parentIsPam: bool, parentHasPam: bool,
                           parentPamEnabled: bool): bool
  {
    if (r.Some? && r.value.attached) || !parentIsPam then parentHasPam
    else parentHasPam || parentPamEnabled
  }

  /** PamInitialize is idempotent, never leaves an unattached record on a band
      of a PAM dataset, keeps any attached record as it is and keeps validity. */
  lemma InitOutcomeProperties(r: Option<PamRecord>, parentIsPam: bool, parentHasPam: bool,
                              parentPamEnabled: bool)
    ensures var o := InitOutcome(r, parentIsPam, parentHasPam, parentPamEnabled);
            var p := ParentAfterInit(r, parentIsPam, parentHasPam, parentPamEnabled);
            InitOutcome(o, parentIsPam, p, parentPamEnabled) == o
            && ParentAfterInit(o, parentIsPam, p, parentPamEnabled) == p
    ensures parentIsPam && InitOutcome(r, parentIsPam, parentHasPam, parentPamEnabled).Some? ==>
              InitOutcome(r, parentIsPam, parentHasPam, parentPamEnabled).value.attached
    ensures r.Some? && r.value.attached ==> InitOutcome(r, parentIsPam, parentHasPam, parentPamEnabled) == r
    ensures (r.Some? ==> r.value.Valid()) ==>
              var o := InitOutcome(r, parentIsPam, parentHasPam, parentPamEnabled); o.Some? ==> o.value.Valid()
  {
  }
}
