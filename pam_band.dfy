/** GDALPamRasterBand: a raster band that keeps its auxiliary metadata in a
    PAM record (GDALRasterBandPamInfo) owned by the band and linked to the
    PAM state of its dataset, which it marks dirty whenever the record
    changes so that the dataset writes its .aux.xml file again. */
module PamBand {
  import opened PamTypes
  import opened Histograms
  import opened PamRecords
  import opened Description
  import opened Cloning

  /** The CPLErr of a setter: CE_None, CE_Failure, or the answer of the
      GDALRasterBand implementation the call was handed to because the band
      has no record. */
  datatype Status = Success | Failure | Delegated

  /** A getter's answer: read from the record, or handed to GDALRasterBand
      because the band has no record. */
  datatype Reply<T> = Pam(value: T) | Base

  // The GDALMajorObject flags (GetMOFlags) this band reads or writes.
  const GMO_IGNORE_UNIMPLEMENTED: bv32 := 0x02
  const GMO_MD_DIRTY: bv32 := 0x10
  const GMO_PAM_CLASS: bv32 := 0x20

  /** How a call may move the dataset's dirty flag: never back, and only up
      through a record linked to the dataset. */
  predicate DirtyRule(before: bool, after: bool, attached: bool) {
    (before ==> after) && (after ==> before || attached)
  }

  /** XMLInit writes the statistics, the histograms and the attribute table
      straight into the record; a tree holding any of them needs a band that
      has a record once PamInitialize has run. */
  predicate WritesRecordDirectly(t: BandTree) {
    (t.minimum.Some? && t.maximum.Some?) || (t.mean.Some? && t.standardDeviation.Some?)
    || t.histograms.Some? || t.rat.Some?
  }

  /** The loop of XMLInit over the children of <CategoryNames>. */
  method CollectCategoryNames(nodes: seq<CategoryNode>) returns (names: seq<string>)
    ensures names == CategoryList(nodes)
  {
    names := [];
    var i := 0;
    while i < |nodes|
      invariant 0 <= i <= |nodes|
      invariant names + CategoryList(nodes[i..]) == CategoryList(nodes)
    {
      CategoryListStep(nodes, i);
      if AcceptedCategory(nodes[i]) {
        names := names + [CategoryText(nodes[i])];
      }
      i := i + 1;
    }
  }

  lemma CategoryListStep(nodes: seq<CategoryNode>, i: nat)
    requires i < |nodes|
    ensures CategoryList(nodes[i..])
            == (if AcceptedCategory(nodes[i]) then [CategoryText(nodes[i])] else []) + CategoryList(nodes[i + 1..])
  {
    assert nodes[i..][1..] == nodes[i + 1..];
  }

  /** The loop of XMLInit over the children of <ColorTable>, each <Entry>
      stored at the next index. */
  method CollectColorEntries(nodes: seq<EntryNode>) returns (entries: seq<ColorEntry>)
    ensures entries == EntryList(nodes)
  {
    entries := [];
    var i := 0;
    while i < |nodes|
      invariant 0 <= i <= |nodes|
      invariant entries + EntryList(nodes[i..]) == EntryList(nodes)
    {
      EntryListStep(nodes, i);
      if AcceptedEntry(nodes[i]) {
        entries := entries + [EntryValue(nodes[i])];
      }
      i := i + 1;
    }
  }

  lemma EntryListStep(nodes: seq<EntryNode>, i: nat)
    requires i < |nodes|
    ensures EntryList(nodes[i..])
            == (if AcceptedEntry(nodes[i]) then [EntryValue(nodes[i])] else []) + EntryList(nodes[i + 1..])
  {
    assert nodes[i..][1..] == nodes[i + 1..];
  }

  class PamRasterBand {
    /** The text conversions this band's GDAL build uses. */
    const num: Numerics
    /** eDataType. */
    const dataType: DataType
    /** nBand (0 for a band that is not part of a dataset). */
    const bandNumber: int
    /** Whether the band has a dataset that is a GDALPamDataset (GMO_PAM_CLASS). */
    const parentIsPam: bool
    /** Whether the dataset's own PamInitialize creates its PAM state. */
    const parentPamEnabled: bool
    /** Whether the dataset holds PAM state (its psPam is not null). */
    var parentHasPam: bool
    /** The dataset's dirty flag, as MarkPamDirty raises it. */
    var parentDirty: bool
    /** psPam; None for a null pointer. */
    var pam: Option<PamRecord>
    /** The band description held by GDALMajorObject. */
    var description: string
    /** The default-domain metadata list held by GDALMajorObject. */
    var metadata: seq<string>
    /** The GDALMajorObject flags (nFlags). */
    var moFlags: bv32

    /** The record is valid, and a record linked to the dataset exists only
        on a band of a PAM dataset that holds PAM state. */
    predicate Valid()
      reads this`pam, this`parentHasPam
    {
      pam.Some? ==> pam.value.Valid() && (pam.value.attached ==> parentIsPam && parentHasPam)
    }

    /** The record PamInitialize would leave. */
    function Initialized(): Option<PamRecord>
      reads this`pam, this`parentHasPam
    {
      InitOutcome(pam, parentIsPam, parentHasPam, parentPamEnabled)
    }

    /** Whether the dataset would hold PAM state after PamInitialize. */
    function ParentAfter(): bool
      reads this`pam, this`parentHasPam
    {
      ParentAfterInit(pam, parentIsPam, parentHasPam, parentPamEnabled)
    }

    /** PamInitialize would change nothing. */
    predicate Settled()
      reads this`pam, this`parentHasPam
    {
      Initialized() == pam && ParentAfter() == parentHasPam
    }

    /** Whether MarkPamDirty reaches the dataset. */
    predicate Attached()
      reads this`pam
    {
      pam.Some? && pam.value.attached
    }

    /** A new band: no record, no description, no metadata, and the flags
        GDALRasterBand's constructor left (`baseFlags`) with GMO_PAM_CLASS
        added. */
    constructor (num: Numerics, dataType: DataType, bandNumber: int, parentIsPam: bool,
                 parentHasPam: bool, parentPamEnabled: bool, baseFlags: bv32)
      ensures this.num == num && this.dataType == dataType && this.bandNumber == bandNumber
      ensures this.parentIsPam == parentIsPam && this.parentHasPam == parentHasPam
      ensures this.parentPamEnabled == parentPamEnabled
      ensures pam == None && !parentDirty && description == "" && metadata == []
      ensures moFlags == baseFlags | GMO_PAM_CLASS && moFlags & GMO_PAM_CLASS != 0
      ensures Valid()
    {
      this.num := num;
      this.dataType := dataType;
      this.bandNumber := bandNumber;
      this.parentIsPam := parentIsPam;
      this.parentHasPam := parentHasPam;
      this.parentPamEnabled := parentPamEnabled;
      parentDirty := false;
      pam := None;
      description := "";
      metadata := [];
      moFlags := baseFlags | GMO_PAM_CLASS;
    }

    /** Creates the record on demand: keeps an attached record, leaves a band
        outside a PAM dataset alone, discards a record made by
        PamInitializeNoParent, and links a fresh record to a dataset that has
        (or now creates) PAM state. Afterwards a second call changes
        nothing. */
    method PamInitialize()
      requires Valid()
      modifies this`pam, this`parentHasPam
      ensures pam == old(Initialized()) && parentHasPam == old(ParentAfter())
      ensures Valid() && Settled()
    {
      InitOutcomeProperties(pam, parentIsPam, parentHasPam, parentPamEnabled);
      if pam.Some? && pam.value.attached {
        return;
      }
      if !parentIsPam {
        return;
      }
      pam := None;
      if parentPamEnabled {
        parentHasPam := true;
      }
      if !parentHasPam {
        return;
      }
      pam := Some(DefaultRecord(true));
    }

    /** A record that serves the getters and setters but is linked to no
        dataset. */
    method PamInitializeNoParent()
      requires Valid()
      modifies this`pam
      ensures old(pam).Some? ==> pam == old(pam)
      ensures old(pam).None? ==> pam == Some(DefaultRecord(false))
      ensures Valid()
    {
      if pam.None? {
        pam := Some(DefaultRecord(false));
      }
    }

    method MarkPamDirty()
      modifies this`parentDirty
      ensures parentDirty == (old(parentDirty) || Attached())
    {
      if pam.Some? && pam.value.attached {
        parentDirty := true;
      }
    }

    /** Frees the record and everything it owns. */
    method PamClear()
      modifies this`pam
      ensures pam == None
    {
      pam := None;
    }

    /** Clears all three nodata variants to their sentinels. The source
        dereferences the record unconditionally. */
    method ResetNoDataValues()
      requires pam.Some? && pam.value.Valid()
      modifies this`pam
      ensures pam == Some(ResetNoData(old(pam).value))
      ensures pam.value.Valid() && pam.value.noData.Kinds() == 0
    {
      NoDataExclusive(pam.value, ZERO, 0, 0);
      pam := Some(ResetNoData(pam.value));
    }

    // Getters: each answers from the record when there is one.

    function GetNoDataValue(): (a: Reply<Answer<Double>>)
      reads this`pam
      ensures a.Pam? <==> pam.Some?
      ensures a.Pam? ==> (a.value.success <==> pam.value.noData.Kinds() > 0)
    {
      if pam.Some? then
        RealNoDataGetter(num, pam.value, ZERO);
        Pam(NoDataValue(num, pam.value))
      else Base
    }

    function GetNoDataValueAsInt64(): (a: Reply<Answer<Int64>>)
      reads this`pam
      ensures a.Pam? <==> pam.Some?
      ensures a.Pam? && dataType != Int64Data ==> a.value == Answer(DEFAULT_NODATA_INT64, false)
    {
      if pam.Some? then Pam(NoDataAsInt64(dataType, pam.value)) else Base
    }

    function GetNoDataValueAsUInt64(): (a: Reply<Answer<UInt64>>)
      reads this`pam
      ensures a.Pam? <==> pam.Some?
      ensures a.Pam? && dataType != UInt64Data ==> a.value == Answer(DEFAULT_NODATA_UINT64, false)
    {
      if pam.Some? then Pam(NoDataAsUInt64(dataType, pam.value)) else Base
    }

    function GetOffset(): Reply<Answer<Double>>
      reads this`pam
    {
      if pam.Some? then Pam(Offset(pam.value)) else Base
    }

    function GetScale(): Reply<Answer<Double>>
      reads this`pam
    {
      if pam.Some? then Pam(Scale(pam.value)) else Base
    }

    function GetUnitType(): Reply<string>
      reads this`pam
    {
      if pam.Some? then Pam(UnitType(pam.value)) else Base
    }

    function GetCategoryNames(): Reply<Option<seq<string>>>
      reads this`pam
    {
      if pam.Some? then Pam(pam.value.categoryNames) else Base
    }

    function GetColorTable(): Reply<Option<ColorTable>>
      reads this`pam
    {
      if pam.Some? then Pam(pam.value.colorTable) else Base
    }

    function GetColorInterpretation(): Reply<ColorInterp>
      reads this`pam
    {
      if pam.Some? then Pam(pam.value.colorInterp) else Base
    }

    /** The attribute table, after PamInitialize. */
    method GetDefaultRAT() returns (a: Reply<Option<Rat>>)
      requires Valid()
      modifies this`pam, this`parentHasPam
      ensures pam == old(Initialized()) && parentHasPam == old(ParentAfter())
      ensures Valid() && Settled()
      ensures a == if pam.Some? then Pam(pam.value.defaultRat) else Base
    {
      PamInitialize();
      if pam.None? {
        return Base;
      }
      return Pam(pam.value.defaultRat);
    }

    // Setters: each runs PamInitialize, hands the call to GDALRasterBand when
    // there is still no record, and otherwise updates the record and marks
    // the dataset dirty.

    method SetNoDataValue(v: Double) returns (status: Status)
      requires Valid()
      modifies this`pam, this`parentHasPam, this`parentDirty
      ensures Valid() && Settled() && parentHasPam == old(ParentAfter())
      ensures var init := old(Initialized());
              pam == (if init.Some? then Some(WithRealNoData(init.value, v)) else None)
              && status == (if init.Some? then Success else Delegated)
              && parentDirty == (old(parentDirty) || Attached())
      ensures pam.Some? ==> GetNoDataValue() == Pam(Answer(v, true))
                            && GetNoDataValueAsInt64().value.success == false
                            && GetNoDataValueAsUInt64().value.success == false
    {
      PamInitialize();
      if pam.None? {
        return Delegated;
      }
      ResetNoDataValues();
      pam := Some(WithRealNoData(pam.value, v));
      NoDataExclusive(pam.value, v, 0, 0);
      RealNoDataGetter(num, pam.value, v);
      MarkPamDirty();
      return Success;
    }

    method SetNoDataValueAsInt64(v: Int64) returns (status: Status)
      requires Valid()
      modifies this`pam, this`parentHasPam, this`parentDirty
      ensures Valid() && Settled() && parentHasPam == old(ParentAfter())
      ensures var init := old(Initialized());
              pam == (if init.Some? then Some(WithInt64NoData(init.value, v)) else None)
              && status == (if init.Some? then Success else Delegated)
              && parentDirty == (old(parentDirty) || Attached())
      ensures pam.Some? ==> GetNoDataValue() == Pam(Answer(num.int64AsDouble(v), true))
                            && (dataType == Int64Data ==> GetNoDataValueAsInt64() == Pam(Answer(v, true)))
                            && GetNoDataValueAsUInt64().value.success == false
    {
      PamInitialize();
      if pam.None? {
        return Delegated;
      }
      ResetNoDataValues();
      pam := Some(WithInt64NoData(pam.value, v));
      NoDataExclusive(pam.value, ZERO, v, 0);
      TypedNoDataGetters(num, dataType, pam.value, v, 0);
      MarkPamDirty();
      return Success;
    }

    method SetNoDataValueAsUInt64(v: UInt64) returns (status: Status)
      requires Valid()
      modifies this`pam, this`parentHasPam, this`parentDirty
      ensures Valid() && Settled() && parentHasPam == old(ParentAfter())
      ensures var init := old(Initialized());
              pam == (if init.Some? then Some(WithUInt64NoData(init.value, v)) else None)
              && status == (if init.Some? then Success else Delegated)
              && parentDirty == (old(parentDirty) || Attached())
      ensures pam.Some? ==> GetNoDataValue() == Pam(Answer(num.uint64AsDouble(v), true))
                            && (dataType == UInt64Data ==> GetNoDataValueAsUInt64() == Pam(Answer(v, true)))
                            && GetNoDataValueAsInt64().value.success == false
    {
      PamInitialize();
      if pam.None? {
        return Delegated;
      }
      ResetNoDataValues();
      pam := Some(WithUInt64NoData(pam.value, v));
      NoDataExclusive(pam.value, ZERO, 0, v);
      TypedNoDataGetters(num, dataType, pam.value, 0, v);
      MarkPamDirty();
      return Success;
    }

    method DeleteNoDataValue() returns (status: Status)
      requires Valid()
      modifies this`pam, this`parentHasPam, this`parentDirty
      ensures Valid() && Settled() && parentHasPam == old(ParentAfter())
      ensures var init := old(Initialized());
              pam == (if init.Some? then Some(ResetNoData(init.value)) else None)
              && status == (if init.Some? then Success else Delegated)
              && parentDirty == (old(parentDirty) || Attached())
      ensures pam.Some? ==> GetNoDataValue() == Pam(Answer(DEFAULT_NODATA, false))
                            && GetNoDataValueAsInt64().value.success == false
                            && GetNoDataValueAsUInt64().value.success == false
    {
      PamInitialize();
      if pam.None? {
        return Delegated;
      }
      ResetNoDataValues();
      RealNoDataGetter(num, pam.value, ZERO);
      MarkPamDirty();
      return Success;
    }

    method SetOffset(v: Double) returns (status: Status)
      requires Valid()
      modifies this`pam, this`parentHasPam, this`parentDirty
      ensures Valid() && Settled() && parentHasPam == old(ParentAfter())
      ensures var init := old(Initialized());
              pam == (if init.Some? then Some(WithOffset(init.value, v)) else None)
              && status == (if init.Some? then Success else Delegated)
              && parentDirty == (old(parentDirty) || (Attached() && ScalarChanges(init.value.offset, v)))
      ensures pam.Some? ==> GetOffset().value.success
                            && (GetOffset().value.value == v || FEq(GetOffset().value.value, v))
    {
      PamInitialize();
      if pam.None? {
        return Delegated;
      }
      OffsetScaleRoundTrip(pam.value, v);
      if !pam.value.offset.isSet || !FEq(pam.value.offset.value, v) {
        pam := Some(pam.value.(offset := Scalar(true, v)));
        MarkPamDirty();
      }
      return Success;
    }

    method SetScale(v: Double) returns (status: Status)
      requires Valid()
      modifies this`pam, this`parentHasPam, this`parentDirty
      ensures Valid() && Settled() && parentHasPam == old(ParentAfter())
      ensures var init := old(Initialized());
              pam == (if init.Some? then Some(WithScale(init.value, v)) else None)
              && status == (if init.Some? then Success else Delegated)
              && parentDirty == (old(parentDirty) || (Attached() && ScalarChanges(init.value.scale, v)))
      ensures pam.Some? ==> GetScale().value.success
                            && (GetScale().value.value == v || FEq(GetScale().value.value, v))
    {
      PamInitialize();
      if pam.None? {
        return Delegated;
      }
      OffsetScaleRoundTrip(pam.value, v);
      if !pam.value.scale.isSet || !FEq(v, pam.value.scale.value) {
        pam := Some(pam.value.(scale := Scalar(true, v)));
        MarkPamDirty();
      }
      return Success;
    }

    /** A null or empty text clears the unit; the dataset is marked dirty
        only when the unit reported afterwards differs. */
    method SetUnitType(s: Option<string>) returns (status: Status)
      requires Valid()
      modifies this`pam, this`parentHasPam, this`parentDirty
      ensures Valid() && Settled() && parentHasPam == old(ParentAfter())
      ensures var init := old(Initialized());
              pam == (if init.Some? then Some(WithUnitType(init.value, s)) else None)
              && status == (if init.Some? then Success else Delegated)
              && parentDirty == (old(parentDirty) || (Attached() && UnitType(pam.value) != UnitType(init.value)))
      ensures pam.Some? ==> GetUnitType() == Pam(s.GetOr(""))
    {
      PamInitialize();
      if pam.None? {
        return Delegated;
      }
      var r := pam.value;
      UnitTypeRoundTrip(r, s);
      if s.None? || s.value == "" {
        if r.unitType.Some? {
          MarkPamDirty();
        }
        pam := Some(r.(unitType := None));
      } else {
        if r.unitType.None? || r.unitType.value != s.value {
          MarkPamDirty();
        }
        pam := Some(r.(unitType := s));
      }
      return Success;
    }

    method SetCategoryNames(names: Option<seq<string>>) returns (status: Status)
      requires Valid()
      modifies this`pam, this`parentHasPam, this`parentDirty
      ensures Valid() && Settled() && parentHasPam == old(ParentAfter())
      ensures var init := old(Initialized());
              pam == (if init.Some? then Some(WithCategoryNames(init.value, names)) else None)
              && status == (if init.Some? then Success else Delegated)
              && parentDirty == (old(parentDirty) || Attached())
      ensures pam.Some? ==> GetCategoryNames().value.GetOr([]) == names.GetOr([])
    {
      PamInitialize();
      if pam.None? {
        return Delegated;
      }
      CategoryNamesCopy(pam.value, names);
      pam := Some(pam.value.(categoryNames := Duplicate(names)));
      MarkPamDirty();
      return Success;
    }

    method SetColorTable(t: Option<ColorTable>) returns (status: Status)
      requires Valid()
      modifies this`pam, this`parentHasPam, this`parentDirty
      ensures Valid() && Settled() && parentHasPam == old(ParentAfter())
      ensures var init := old(Initialized());
              pam == (if init.Some? then Some(WithColorTable(init.value, t)) else None)
              && status == (if init.Some? then Success else Delegated)
              && parentDirty == (old(parentDirty) || Attached())
      ensures pam.Some? ==> GetColorTable() == Pam(t)
                            && (t.Some? ==> GetColorInterpretation() == Pam(PaletteIndex))
    {
      PamInitialize();
      if pam.None? {
        return Delegated;
      }
      var r := pam.value;
      ColorTableForcesPalette(r, t);
      r := r.(colorTable := None);
      if t.Some? {
        r := r.(colorTable := t, colorInterp := PaletteIndex);
      }
      pam := Some(r);
      MarkPamDirty();
      return Success;
    }

    method SetColorInterpretation(c: ColorInterp) returns (status: Status)
      requires Valid()
      modifies this`pam, this`parentHasPam, this`parentDirty
      ensures Valid() && Settled() && parentHasPam == old(ParentAfter())
      ensures var init := old(Initialized());
              pam == (if init.Some? then Some(WithColorInterp(init.value, c)) else None)
              && status == (if init.Some? then Success else Delegated)
              && parentDirty == (old(parentDirty) || Attached())
      ensures pam.Some? ==> GetColorInterpretation() == Pam(c)
    {
      PamInitialize();
      if pam.Some? {
        MarkPamDirty();
        pam := Some(pam.value.(colorInterp := c));
        return Success;
      }
      return Delegated;
    }

    method SetDefaultRAT(rat: Option<Rat>) returns (status: Status)
      requires Valid()
      modifies this`pam, this`parentHasPam, this`parentDirty
      ensures Valid() && Settled() && parentHasPam == old(ParentAfter())
      ensures var init := old(Initialized());
              pam == (if init.Some? then Some(WithDefaultRat(init.value, rat)) else None)
              && status == (if init.Some? then Success else Delegated)
              && parentDirty == (old(parentDirty) || Attached())
      ensures pam.Some? ==> pam.value.defaultRat == rat
    {
      PamInitialize();
      if pam.None? {
        return Delegated;
      }
      MarkPamDirty();
      pam := Some(pam.value.(defaultRat := rat));
      return Success;
    }

    /** The description is always stored; the dataset is marked dirty when
        the band has a record and the text differs from the current one. */
    method SetDescription(d: string)
      requires Valid()
      modifies this`pam, this`parentHasPam, this`parentDirty, this`description
      ensures Valid() && Settled() && parentHasPam == old(ParentAfter())
      ensures pam == old(Initialized()) && description == d
      ensures parentDirty == (old(parentDirty) || (Attached() && d != old(description)))
    {
      PamInitialize();
      if pam.Some? && d != description {
        MarkPamDirty();
      }
      description := d;
    }

    /** The new default-domain metadata list is stored by GDALMajorObject,
        which also raises its GMO_MD_DIRTY flag; the dataset is marked dirty
        whenever the band has a linked record. */
    method SetMetadata(md: seq<string>)
      requires Valid()
      modifies this`pam, this`parentHasPam, this`parentDirty, this`metadata, this`moFlags
      ensures Valid() && Settled() && parentHasPam == old(ParentAfter())
      ensures pam == old(Initialized()) && metadata == md
      ensures parentDirty == (old(parentDirty) || Attached())
      ensures moFlags == old(moFlags) | GMO_MD_DIRTY
    {
      PamInitialize();
      MarkPamDirty();
      metadata := md;
      moFlags := moFlags | GMO_MD_DIRTY;
    }

    /** As SetMetadata for a single item; the update of the list itself is
        GDALMajorObject's and is not modelled, its GMO_MD_DIRTY flag is. */
    method SetMetadataItem(name: string, value: string)
      requires Valid()
      modifies this`pam, this`parentHasPam, this`parentDirty, this`moFlags
      ensures Valid() && Settled() && parentHasPam == old(ParentAfter())
      ensures pam == old(Initialized())
      ensures parentDirty == (old(parentDirty) || Attached())
      ensures moFlags == old(moFlags) | GMO_MD_DIRTY
    {
      PamInitialize();
      MarkPamDirty();
      moFlags := moFlags | GMO_MD_DIRTY;
    }

    /** GetHistogram: a matching cached histogram that parses is returned;
        otherwise GDALRasterBand computes one (`compute`, for the request as
        PamParseHistogram may have rewritten it), and a computed histogram
        whose bucket count can be encoded is appended to the cache and marks
        the dataset dirty. */
    method GetHistogram(req: HistRequest, compute: HistRequest -> Option<seq<UInt64>>)
      returns (status: Status, counts: seq<UInt64>)
      requires Valid()
      requires forall q :: compute(q).Some? ==> q.buckets <= |compute(q).value|
      modifies this`pam, this`parentHasPam, this`parentDirty
      ensures Valid() && Settled() && parentHasPam == old(ParentAfter())
      ensures old(Initialized()).None? ==> status == Delegated && pam.None? && parentDirty == old(parentDirty)
      ensures var init := old(Initialized());
              init.Some? ==>
                match Lookup(num, init.value.savedHistograms, req)
                case Hit(c) => status == Success && counts == c && pam == init && parentDirty == old(parentDirty)
                case Miss(q) =>
                  match compute(q)
                  case None => status == Failure && pam == init && parentDirty == old(parentDirty)
                  case Some(c) =>
                    status == Success && counts == c
                    && (0 <= q.buckets <= MAX_CACHED_BUCKETS ==>
                          pam == Some(init.value.(savedHistograms := Some(init.value.savedHistograms.GetOr([])
                            + [EncodedItem(num, q.min, q.max, q.buckets, c[..q.buckets], q.includeOutOfRange, q.approxOK)])))
                          && parentDirty == (old(parentDirty) || Attached()))
                    && (q.buckets < 0 || q.buckets > MAX_CACHED_BUCKETS ==>
                          pam == init && parentDirty == old(parentDirty))
      // A histogram computed for a request nothing in the cache matched is
      // found by the same request afterwards.
      ensures var init := old(Initialized());
              (init.Some? && FindMatchingHistogram(num, init.value.savedHistograms, req.min, req.max, req.buckets,
                                                   req.includeOutOfRange, req.approxOK).None?
               && compute(req).Some? && 1 <= req.buckets <= MAX_CACHED_BUCKETS
               && (forall i :: 0 <= i < req.buckets ==> compute(req).value[i] < TWO_63)
               && num.areRealEqual(num.general16(req.min), req.min)
               && num.areRealEqual(num.general16(req.max), req.max))
              ==> pam.Some? && Lookup(num, pam.value.savedHistograms, req) == Hit(compute(req).value[..req.buckets])
    {
      PamInitialize();
      if pam.None? {
        return Delegated, [];
      }
      var lookup := Lookup(num, pam.value.savedHistograms, req);
      if lookup.Hit? {
        return Success, lookup.counts;
      }
      var q := lookup.request;
      var computed := compute(q);
      if computed.None? {
        return Failure, [];
      }
      counts := computed.value;
      var item := HistogramToXmlTree(num, q.min, q.max, q.buckets, counts, q.includeOutOfRange, q.approxOK);
      if item.Some? {
        MarkPamDirty();
        var r := pam.value;
        pam := Some(r.(savedHistograms := Some(r.savedHistograms.GetOr([]) + [item.value])));
        if FindMatchingHistogram(num, r.savedHistograms, req.min, req.max, req.buckets,
                                 req.includeOutOfRange, req.approxOK).None?
           && 1 <= req.buckets <= MAX_CACHED_BUCKETS
           && (forall i :: 0 <= i < req.buckets ==> counts[i] < TWO_63)
           && num.areRealEqual(num.general16(req.min), req.min)
           && num.areRealEqual(num.general16(req.max), req.max) {
          CachedHistogramHits(num, r.savedHistograms, req, counts);
        }
      }
      return Success, counts;
    }

    /** SetDefaultHistogram: removes the first entry matching the bounds and
        the bucket count with a nonzero IncludeOutOfRange, approximate or
        not, then
        puts the new histogram at the front of the list, where
        GetDefaultHistogram reads it. A bucket count that cannot be encoded
        fails after the removal, without marking the dataset dirty. */
    method SetDefaultHistogram(dfMin: Double, dfMax: Double, n: Int32, counts: seq<UInt64>)
      returns (status: Status)
      requires Valid()
      requires n <= |counts|
      modifies this`pam, this`parentHasPam, this`parentDirty
      ensures Valid() && Settled() && parentHasPam == old(ParentAfter())
      ensures old(Initialized()).None? ==> status == Delegated && pam.None? && parentDirty == old(parentDirty)
      ensures var init := old(Initialized());
              init.Some? ==>
                var kept := WithoutMatch(num, init.value.savedHistograms, dfMin, dfMax, n);
                (n < 0 || n > MAX_CACHED_BUCKETS ==>
                   status == Failure && pam == Some(init.value.(savedHistograms := kept))
                   && parentDirty == old(parentDirty))
                && (0 <= n <= MAX_CACHED_BUCKETS ==>
                   status == Success
                   && pam == Some(init.value.(savedHistograms :=
                                Some([EncodedItem(num, dfMin, dfMax, n, counts[..n], 1, 0)] + kept.GetOr([]))))
                   && parentDirty == (old(parentDirty) || Attached()))
      ensures pam.Some? && 1 <= n <= MAX_CACHED_BUCKETS && (forall i :: 0 <= i < n ==> counts[i] < TWO_63) ==>
                FirstItem(pam.value.savedHistograms).Some?
                && ParseSpec(FirstItem(pam.value.savedHistograms).value)
                     == HistParse(num.general16(dfMin), num.general16(dfMax), n, true, counts[..n])
    {
      PamInitialize();
      if pam.None? {
        return Delegated;
      }
      var r := pam.value;
      var kept := WithoutMatch(num, r.savedHistograms, dfMin, dfMax, n);
      pam := Some(r.(savedHistograms := kept));
      var item := HistogramToXmlTree(num, dfMin, dfMax, n, counts, 1, 0);
      if item.None? {
        return Failure;
      }
      MarkPamDirty();
      pam := Some(r.(savedHistograms := Some([item.value] + kept.GetOr([]))));
      if 1 <= n && (forall i :: 0 <= i < n ==> counts[i] < TWO_63) {
        DefaultHistogramRoundTrip(num, r.savedHistograms, dfMin, dfMax, n, counts[..n]);
      }
      return Success;
    }

    /** GetDefaultHistogram: the first entry of the cache, parsed; a cache
        that is missing or empty is handed to GDALRasterBand. */
    method GetDefaultHistogram() returns (status: Status, p: HistParse)
      ensures var first := if pam.Some? then FirstItem(pam.value.savedHistograms) else None;
              (first.None? ==> status == Delegated)
              && (first.Some? ==> p == ParseSpec(first.value)
                                  && (status == Success <==> p.ok) && (status == Failure <==> !p.ok))
    {
      if pam.Some? && pam.value.savedHistograms.Some? && |pam.value.savedHistograms.value| > 0 {
        p := ParseHistogram(pam.value.savedHistograms.value[0]);
        status := if p.ok then Success else Failure;
        return;
      }
      return Delegated, HistParse(ZERO, ONE, 0, false, []);
    }

    // The blocks of CloneInfo, each through this band's own getters and
    // setters; on a band without a record every setter is handed on and the
    // record stays absent.

    method CloneMetadataBlock(src: SourceBand, flags: CloneFlags)
      requires Valid() && Settled()
      modifies this`pam, this`parentHasPam, this`parentDirty, this`metadata, this`moFlags
      ensures Valid() && Settled() && pam == old(pam) && parentHasPam == old(parentHasPam)
      ensures metadata == ClonedMetadata(src, flags, old(metadata))
      ensures moFlags == if flags.metadata && src.metadata.Some?
                            && (!flags.onlyIfMissing || |old(metadata)| != |src.metadata.value|)
                         then old(moFlags) | GMO_MD_DIRTY else old(moFlags)
      ensures DirtyRule(old(parentDirty), parentDirty, Attached())
    {
      if flags.metadata && src.metadata.Some? {
        if !flags.onlyIfMissing || |metadata| != |src.metadata.value| {
          SetMetadata(src.metadata.value);
        }
      }
    }

    method CloneDescriptionBlock(src: SourceBand, flags: CloneFlags)
      requires Valid() && Settled()
      modifies this`pam, this`parentHasPam, this`parentDirty, this`description
      ensures Valid() && Settled() && pam == old(pam) && parentHasPam == old(parentHasPam)
      ensures description == ClonedDescription(src, flags, old(description))
      ensures DirtyRule(old(parentDirty), parentDirty, Attached())
    {
      if flags.description && |src.description| > 0 {
        if !flags.onlyIfMissing || |description| == 0 {
          SetDescription(src.description);
        }
      }
    }

    method CloneNoDataBlock(src: SourceBand, only: bool)
      requires Valid() && Settled()
      modifies this`pam, this`parentHasPam, this`parentDirty
      ensures Valid() && Settled() && parentHasPam == old(parentHasPam)
      ensures pam == (if old(pam).Some? then Some(CloneNoData(num, dataType, src, only, old(pam).value)) else None)
      ensures DirtyRule(old(parentDirty), parentDirty, Attached())
    {
      var st: Status;
      match src.dataType
      case Int64Data =>
        var v := src.noDataInt64;
        if v.success {
          var have := GetNoDataValueAsInt64();
          if !only || have.Base? || !have.value.success || have.value.value != v.value {
            st := SetNoDataValueAsInt64(v.value);
          }
        }
      case UInt64Data =>
        var v := src.noDataUInt64;
        if v.success {
          var have := GetNoDataValueAsUInt64();
          if !only || have.Base? || !have.value.success || have.value.value != v.value {
            st := SetNoDataValueAsUInt64(v.value);
          }
        }
      case OtherData =>
        var v := src.noData;
        if v.success {
          var have := GetNoDataValue();
          if !only || have.Base? || !have.value.success || !SameNoData(have.value.value, v.value) {
            st := SetNoDataValue(v.value);
          }
        }
    }

    method CloneCategoryNamesBlock(src: SourceBand, only: bool)
      requires Valid() && Settled()
      modifies this`pam, this`parentHasPam, this`parentDirty
      ensures Valid() && Settled() && parentHasPam == old(parentHasPam)
      ensures pam == (if old(pam).Some? then Some(CloneCategoryNames(src, only, old(pam).value)) else None)
      ensures DirtyRule(old(parentDirty), parentDirty, Attached())
    {
      if src.categoryNames.Some? {
        var have := GetCategoryNames();
        if !only || have.Base? || have.value.None? {
          var st := SetCategoryNames(src.categoryNames);
        }
      }
    }

    method CloneScaleOffsetBlock(src: SourceBand, only: bool)
      requires Valid() && Settled()
      modifies this`pam, this`parentHasPam, this`parentDirty
      ensures Valid() && Settled() && parentHasPam == old(parentHasPam)
      ensures pam == (if old(pam).Some? then Some(CloneScaleOffset(src, only, old(pam).value)) else None)
      ensures DirtyRule(old(parentDirty), parentDirty, Attached())
    {
      var st: Status;
      if src.offset.success {
        var have := GetOffset();
        if !only || have.Base? || !FEq(have.value.value, src.offset.value) {
          st := SetOffset(src.offset.value);
        }
      }
      if src.scale.success {
        var have := GetScale();
        if !only || have.Base? || !FEq(have.value.value, src.scale.value) {
          st := SetScale(src.scale.value);
        }
      }
    }

    method CloneUnitTypeBlock(src: SourceBand, only: bool)
      requires Valid() && Settled()
      modifies this`pam, this`parentHasPam, this`parentDirty
      ensures Valid() && Settled() && parentHasPam == old(parentHasPam)
      ensures pam == (if old(pam).Some? then Some(CloneUnitType(src, only, old(pam).value)) else None)
      ensures DirtyRule(old(parentDirty), parentDirty, Attached())
    {
      if |src.unitType| > 0 {
        var have := GetUnitType();
        if !only || have.Base? || !EqualNoCase(have.value, src.unitType) {
          var st := SetUnitType(Some(src.unitType));
        }
      }
    }

    method CloneColorInterpBlock(src: SourceBand, only: bool)
      requires Valid() && Settled()
      modifies this`pam, this`parentHasPam, this`parentDirty
      ensures Valid() && Settled() && parentHasPam == old(parentHasPam)
      ensures pam == (if old(pam).Some? then Some(CloneColorInterp(src, only, old(pam).value)) else None)
      ensures DirtyRule(old(parentDirty), parentDirty, Attached())
    {
      if src.colorInterp != Undefined {
        var have := GetColorInterpretation();
        if !only || have.Base? || src.colorInterp != have.value {
          var st := SetColorInterpretation(src.colorInterp);
        }
      }
    }

    method CloneColorTableBlock(src: SourceBand, only: bool)
      requires Valid() && Settled()
      modifies this`pam, this`parentHasPam, this`parentDirty
      ensures Valid() && Settled() && parentHasPam == old(parentHasPam)
      ensures pam == (if old(pam).Some? then Some(CloneColorTable(src, only, old(pam).value)) else None)
      ensures DirtyRule(old(parentDirty), parentDirty, Attached())
    {
      if src.colorTable.Some? {
        var have := GetColorTable();
        if !only || have.Base? || have.value.None? {
          var st := SetColorTable(src.colorTable);
        }
      }
    }

    method CloneRatBlock(src: SourceBand, only: bool)
      requires Valid() && Settled()
      modifies this`pam, this`parentHasPam, this`parentDirty
      ensures Valid() && Settled() && parentHasPam == old(parentHasPam)
      ensures pam == (if old(pam).Some? then Some(CloneRat(src, only, old(pam).value)) else None)
      ensures DirtyRule(old(parentDirty), parentDirty, Attached())
    {
      var rat := src.defaultRat;
      if rat.Some? && rat.value.HasContent() {
        var have := GetDefaultRAT();
        if !only || have.Base? || have.value.None? {
          var st := SetDefaultRAT(rat);
        }
      }
    }

    /** GDALMajorObject::SetMOFlags. */
    method SetMOFlags(f: bv32)
      modifies this`moFlags
      ensures moFlags == f
    {
      moFlags := f;
    }

    /** The blocks of CloneInfo for what GDALMajorObject holds: the metadata
        and the description. */
    method CloneMajorObjectBlocks(src: SourceBand, flags: CloneFlags)
      requires Valid() && Settled()
      modifies this`pam, this`parentHasPam, this`parentDirty, this`description, this`metadata
      modifies this`moFlags
      ensures Valid() && Settled() && pam == old(pam) && parentHasPam == old(parentHasPam)
      ensures description == ClonedDescription(src, flags, old(description))
      ensures metadata == ClonedMetadata(src, flags, old(metadata))
      ensures DirtyRule(old(parentDirty), parentDirty, Attached())
    {
      CloneMetadataBlock(src, flags);
      CloneDescriptionBlock(src, flags);
    }

    /** The blocks of CloneInfo for the nodata value, the category names,
        the offset and scale and the unit. */
    method CloneValueBlocks(src: SourceBand, flags: CloneFlags)
      requires Valid() && Settled()
      modifies this`pam, this`parentHasPam, this`parentDirty
      ensures Valid() && Settled() && parentHasPam == old(parentHasPam)
      ensures pam == (if old(pam).Some? then Some(ClonedValues(num, dataType, src, flags, old(pam).value)) else None)
      ensures DirtyRule(old(parentDirty), parentDirty, Attached())
    {
      var only := flags.onlyIfMissing;
      if flags.noData {
        CloneNoDataBlock(src, only);
      }
      if flags.categoryNames {
        CloneCategoryNamesBlock(src, only);
      }
      if flags.scaleOffset {
        CloneScaleOffsetBlock(src, only);
      }
      if flags.unitType {
        CloneUnitTypeBlock(src, only);
      }
    }

    /** The blocks of CloneInfo for the interpretation, the color table and
        the attribute table. */
    method ClonePaletteBlocks(src: SourceBand, flags: CloneFlags)
      requires Valid() && Settled()
      modifies this`pam, this`parentHasPam, this`parentDirty
      ensures Valid() && Settled() && parentHasPam == old(parentHasPam)
      ensures pam == (if old(pam).Some? then Some(ClonedPalette(src, flags, old(pam).value)) else None)
      ensures DirtyRule(old(parentDirty), parentDirty, Attached())
    {
      var only := flags.onlyIfMissing;
      if flags.colorInterp {
        CloneColorInterpBlock(src, only);
      }
      if flags.colorTable {
        CloneColorTableBlock(src, only);
      }
      if flags.rat {
        CloneRatBlock(src, only);
      }
    }

    /** The blocks of CloneInfo that reach the record, from the nodata value
        to the attribute table. */
    method CloneRecordBlocks(src: SourceBand, flags: CloneFlags)
      requires Valid() && Settled()
      modifies this`pam, this`parentHasPam, this`parentDirty
      ensures Valid() && Settled() && parentHasPam == old(parentHasPam)
      ensures pam == (if old(pam).Some? then Some(ClonedRecord(num, dataType, src, flags, old(pam).value)) else None)
      ensures DirtyRule(old(parentDirty), parentDirty, Attached())
    {
      CloneValueBlocks(src, flags);
      ClonePaletteBlocks(src, flags);
    }

    /** The blocks of CloneInfo, in source order. */
    method CloneBlocks(src: SourceBand, flags: CloneFlags)
      requires Valid() && Settled()
      modifies this`pam, this`parentHasPam, this`parentDirty, this`description, this`metadata
      modifies this`moFlags
      ensures Valid() && Settled() && parentHasPam == old(parentHasPam)
      ensures pam == (if old(pam).Some? then Some(ClonedRecord(num, dataType, src, flags, old(pam).value)) else None)
      ensures description == ClonedDescription(src, flags, old(description))
      ensures metadata == ClonedMetadata(src, flags, old(metadata))
      ensures DirtyRule(old(parentDirty), parentDirty, Attached())
    {
      CloneMajorObjectBlocks(src, flags);
      CloneRecordBlocks(src, flags);
    }

    /** CloneInfo: copies what the flags select from the source band, in the
        order metadata, description, nodata, category names, offset and
        scale, unit, interpretation, color table, attribute table; under
        GCIF_ONLY_IF_MISSING only what this band lacks or reports
        differently. The copy runs with GMO_IGNORE_UNIMPLEMENTED raised, and
        the flags saved on entry are put back on return, which also clears
        the GMO_MD_DIRTY flag the metadata copy raises. It always
        succeeds. */
    method CloneInfo(src: SourceBand, flags: CloneFlags) returns (status: Status)
      requires Valid()
      modifies this`pam, this`parentHasPam, this`parentDirty, this`description, this`metadata
      modifies this`moFlags
      ensures Valid() && Settled() && parentHasPam == old(ParentAfter())
      ensures var init := old(Initialized());
              pam == (if init.Some? then Some(ClonedRecord(num, dataType, src, flags, init.value)) else None)
      ensures description == ClonedDescription(src, flags, old(description))
      ensures metadata == ClonedMetadata(src, flags, old(metadata))
      ensures DirtyRule(old(parentDirty), parentDirty, Attached())
      ensures moFlags == old(moFlags)
      ensures status == Success
    {
      var savedFlags := moFlags;
      PamInitialize();
      SetMOFlags(savedFlags | GMO_IGNORE_UNIMPLEMENTED);
      CloneBlocks(src, flags);
      SetMOFlags(savedFlags);
      return Success;
    }

    // The blocks of XMLInit that go through the band's setters.

    method InitNoDataBlock(t: BandTree)
      requires Valid() && Settled()
      modifies this`pam, this`parentHasPam, this`parentDirty
      ensures Valid() && Settled() && parentHasPam == old(parentHasPam)
      ensures pam == (if old(pam).Some? then Some(DecodeNoDataStep(num, t, old(pam).value, dataType)) else None)
      ensures DirtyRule(old(parentDirty), parentDirty, Attached())
    {
      if t.noDataValue.Some? {
        var node := t.noDataValue.value;
        var st: Status;
        if node.leHex.Some? {
          if |node.leHex.value| == 8 {
            st := SetNoDataValue(FromLittleEndian(node.leHex.value));
          } else {
            st := SetNoDataValue(ReadReal(num, node.text));
          }
        } else if dataType == Int64Data {
          st := SetNoDataValueAsInt64(ReadInt64(num, node.text));
        } else if dataType == UInt64Data {
          st := SetNoDataValueAsUInt64(ReadUInt64(num, node.text));
        } else {
          st := SetNoDataValue(ReadReal(num, node.text));
        }
      }
    }

    method InitScalingBlock(t: BandTree)
      requires Valid() && Settled()
      modifies this`pam, this`parentHasPam, this`parentDirty
      ensures Valid() && Settled() && parentHasPam == old(parentHasPam)
      ensures pam == (if old(pam).Some? then Some(DecodeScaling(t, old(pam).value)) else None)
      ensures DirtyRule(old(parentDirty), parentDirty, Attached())
    {
      if t.offset.Some? || t.scale.Some? {
        var st := SetOffset(t.offset.GetOr(ZERO));
        st := SetScale(t.scale.GetOr(ONE));
      }
    }

    method InitUnitTypeBlock(t: BandTree)
      requires Valid() && Settled()
      modifies this`pam, this`parentHasPam, this`parentDirty
      ensures Valid() && Settled() && parentHasPam == old(parentHasPam)
      ensures pam == (if old(pam).Some? then Some(DecodeUnitType(t, old(pam).value)) else None)
      ensures DirtyRule(old(parentDirty), parentDirty, Attached())
    {
      if t.unitType.Some? {
        var st := SetUnitType(t.unitType);
      }
    }

    method InitInterpBlock(t: BandTree)
      requires Valid() && Settled()
      modifies this`pam, this`parentHasPam, this`parentDirty
      ensures Valid() && Settled() && parentHasPam == old(parentHasPam)
      ensures pam == (if old(pam).Some? then Some(DecodeInterp(t, old(pam).value)) else None)
      ensures DirtyRule(old(parentDirty), parentDirty, Attached())
    {
      if t.colorInterp.Some? {
        var st := SetColorInterpretation(t.colorInterp.value);
      }
    }

    method InitCategoriesBlock(t: BandTree)
      requires Valid() && Settled()
      modifies this`pam, this`parentHasPam, this`parentDirty
      ensures Valid() && Settled() && parentHasPam == old(parentHasPam)
      ensures pam == (if old(pam).Some? then Some(DecodeCategories(t, old(pam).value)) else None)
      ensures DirtyRule(old(parentDirty), parentDirty, Attached())
    {
      if t.categoryNames.Some? {
        var names := CollectCategoryNames(t.categoryNames.value);
        var st := SetCategoryNames(Some(names));
      }
    }

    method InitColorTableBlock(t: BandTree)
      requires Valid() && Settled()
      modifies this`pam, this`parentHasPam, this`parentDirty
      ensures Valid() && Settled() && parentHasPam == old(parentHasPam)
      ensures pam == (if old(pam).Some? then Some(DecodeColorTable(t, old(pam).value)) else None)
      ensures DirtyRule(old(parentDirty), parentDirty, Attached())
    {
      if t.colorTable.Some? {
        var entries := CollectColorEntries(t.colorTable.value);
        var st := SetColorTable(Some(ColorTable(entries)));
      }
    }

    method InitSetterBlocks(t: BandTree)
      requires Valid() && Settled()
      modifies this`pam, this`parentHasPam, this`parentDirty
      ensures Valid() && Settled() && parentHasPam == old(parentHasPam)
      ensures pam == (if old(pam).Some? then Some(DecodeThroughSetters(num, t, old(pam).value, dataType)) else None)
      ensures DirtyRule(old(parentDirty), parentDirty, Attached())
    {
      InitNoDataBlock(t);
      InitScalingBlock(t);
      InitUnitTypeBlock(t);
      InitInterpBlock(t);
      InitCategoriesBlock(t);
      InitColorTableBlock(t);
    }

    /** The statistics, histograms and attribute table, written straight
        into the record without marking the dataset dirty. */
    method InitDirectBlocks(t: BandTree)
      requires Valid() && Settled()
      requires WritesRecordDirectly(t) ==> pam.Some?
      modifies this`pam
      ensures Valid() && Settled()
      ensures pam == (if old(pam).Some? then Some(DecodeDirect(t, old(pam).value)) else None)
    {
      if t.minimum.Some? && t.maximum.Some? {
        var r := pam.value;
        pam := Some(r.(stats := r.stats.(haveMinMax := true, min := t.minimum.value, max := t.maximum.value)));
      }
      if t.mean.Some? && t.standardDeviation.Some? {
        var r := pam.value;
        pam := Some(r.(stats := r.stats.(haveStats := true, mean := t.mean.value,
                                          stdDev := t.standardDeviation.value)));
      }
      if t.histograms.Some? {
        pam := Some(pam.value.(savedHistograms := t.histograms));
      }
      if t.rat.Some? {
        pam := Some(pam.value.(defaultRat := t.rat));
      }
    }

    /** XMLInit: after PamInitialize, takes the metadata and the description
        (without marking the dataset dirty), then applies each child through
        the setters, then writes statistics, histograms and the attribute
        table straight into the record. The source dereferences the record
        for the last three even when there is none. */
    method XMLInit(t: BandTree) returns (status: Status)
      requires Valid()
      requires WritesRecordDirectly(t) ==> Initialized().Some?
      modifies this`pam, this`parentHasPam, this`parentDirty, this`description, this`metadata
      ensures Valid() && Settled() && parentHasPam == old(ParentAfter())
      ensures var init := old(Initialized());
              pam == (if init.Some? then Some(DecodeRecord(num, t, init.value, dataType)) else None)
      ensures description == t.description.GetOr("")
      ensures metadata == t.metadata.GetOr(old(metadata))
      ensures DirtyRule(old(parentDirty), parentDirty, Attached())
      ensures status == Success
    {
      PamInitialize();
      if t.metadata.Some? {
        metadata := t.metadata.value;
      }
      description := t.description.GetOr("");
      InitSetterBlocks(t);
      InitDirectBlocks(t);
      return Success;
    }

    /** The <PAMRasterBand> tree, or None when there is no record or the
        tree would hold nothing but the band number. */
    function SerializeToXML(): (t: Option<BandTree>)
      reads this`pam, this`description, this`metadata
      ensures pam.None? ==> t.None?
      ensures t.Some? ==> ChildCount(t.value) >= 2
      ensures (pam.Some? && description == "" && metadata == []
               && pam.value == DefaultRecord(pam.value.attached)) ==> t.None?
      ensures t.Some? ==> (t.value.rat.Some? <==> pam.value.defaultRat.Some? && pam.value.defaultRat.value.HasContent())
    {
      if pam.None? then None
      else
        DefaultsSerializeToNothing(num, pam.value.attached, bandNumber);
        Serialized(num, pam.value, bandNumber, description, metadata)
    }
  }
}
