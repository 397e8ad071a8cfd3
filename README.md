# GDAL PAM raster band, modelled in Dafny

GDAL keeps auxiliary information about a raster band in a Persistent
Auxiliary Metadata (PAM) record, `GDALRasterBandPamInfo`. A driver that
cannot store that information in its own format uses this record instead.
It holds:

- the nodata value, in three variants: a double, an int64 and a uint64;
- the offset and the scale;
- the unit type and the color interpretation;
- the category names and the color table;
- the default raster attribute table;
- the statistics;
- a cache of histograms.

`GDALPamRasterBand` (in `gcore/gdalpamrasterband.cpp`) owns that record:

- It creates the record on demand and links it to the PAM state of its
  dataset (`PamInitialize`).
- Its getters answer from the record and its setters update it. Each
  setter marks the dataset dirty so that the dataset writes its `.aux.xml`
  file again.
- It writes the record to a `<PAMRasterBand>` tree (`SerializeToXML`) and
  reads one back (`XMLInit`).
- It copies band information from another band (`CloneInfo`).
- It caches histograms as `<HistItem>` entries (`GetHistogram`,
  `SetDefaultHistogram`, `GetDefaultHistogram`).

The model has seven modules:

| module | file | what it holds |
|---|---|---|
| `PamTypes` | `pam_types.dfy` | Shared value types. A C double is held by its IEEE 754 bit pattern, so C's `==`, NaN and `floor` can be written down and the `le_hex_equiv` bytes are exact. Also the int32, int64, uint64 and short widths, with their casts written out, and colour entries, tables and attribute tables. |
| `Decimal` | `decimal.dfy` | printf's `%d`, `%lld` and `%llu`, and the atoi, atoll, strtoll and strtoull readers, with their clamping. |
| `Histograms` | `histograms.dfy` | The `<HistItem>` codec (`PamHistogramToXMLTree`, `PamParseHistogram`), the first-match search (`PamFindMatchingHistogram`) and the cache step of `GetHistogram`. |
| `PamRecords` | `pam_record.dfy` | The record as a value, and the update each setter makes to it. |
| `Description` | `description.dfy` | The `<PAMRasterBand>` tree at the level of its children: what `SerializeToXML` writes and what `XMLInit` makes of it. |
| `Cloning` | `clone.dfy` | `CloneInfo` as a function of the source band, the flags and the record. |
| `PamBand` | `pam_band.dfy` | The band itself. It is a class whose fields are the record pointer (`pam`, with `None` for null), the band description, the default-domain metadata and the dataset's PAM state, held as `parentHasPam` and `parentDirty`. |

**How the class methods are stated.** Each method of the class states the
record it leaves as a function of the record `PamInitialize` would have left.
Lemmas about those functions state what the source promises, such as:

- round trips of getters after setters, and of `XMLInit` after `SerializeToXML`;
- the histogram codec round trip;
- nodata exclusivity;
- the `GCIF_ONLY_IF_MISSING` rules.

**How the dirty flag is modelled.** The dataset's dirty flag is a field of
the band. `MarkPamDirty` raises it only through a record that is linked to
the dataset.

**Where the code and its documentation disagree, the model follows the code:**

- **When the tree is dropped.** `SerializeToXML` drops the tree when the root
  has fewer than two children (lines 260-264), so a tree holding only
  `#band` is dropped. The documentation says only that an empty root is
  dropped.
- **Empty category lists.** An empty list of category names is stored as
  null, because `CSLDuplicate` returns null for it. An empty list therefore
  does not survive a round trip as an empty list.
- **Colour entries.** They are C shorts read with `atoi`, not 0-255 values.
- **A default histogram that does not parse.** `GetDefaultHistogram`
  returns `CE_Failure` (line 1537) and is not handed to `GDALRasterBand`.
- **Nodata set as a 64-bit integer.** `GetNoDataValue` reports success when
  an int64 or uint64 variant is set, and returns its value cast to double.

Three behaviours of the source are kept as they are and stated by lemmas.

1. **An entry without `BucketCount` (`Histograms.MissingBucketCountHit`).**
   The match reads the missing count as 0 and the parse reads it as 2. So a
   request for 0 buckets gets 2 counts.
2. **A matching entry that does not parse (`Histograms.FailedParseMovesRequest`).**
   The parse has already written the entry's bounds and bucket count into the
   request. The histogram is then computed for those values and not for the
   caller's. A missing `HistMax` reads as 0 in the match and as 1 in the parse.
3. **Re-cloning in only-if-missing mode (`Cloning.RecloneIsStable`).**
   After a full clone, this mode changes nothing, except when the source's
   colour table and its interpretation disagree. In that case the second
   pass puts the source's interpretation back in place of `GCI_PaletteIndex`.

## Model

| member | source | states |
|---|---|---|
| PamTypes.LittleEndianRoundTrip | gcore/gdalpamrasterband.cpp:119-130 | The eight `le_hex_equiv` bytes read back to the same double, bit for bit (NaN payloads and the sign of zero included). |
| PamTypes.ToShort | gcore/gdalpamrasterband.cpp:493-497 | `static_cast<short>` keeps a value that fits and otherwise wraps modulo 2^16. |
| PamTypes.AsUnsigned | gcore/gdalpamrasterband.cpp:1296 | A GIntBig stored into a GUIntBig keeps a non-negative value and wraps a negative one by 2^64. |
| PamTypes.ToInt32 | gcore/gdalpamrasterband.cpp:1266 | atoi's narrowing to int keeps a value that fits and otherwise wraps modulo 2^32. |
| Decimal.AtoLL | gcore/gdalpamrasterband.cpp:1296 | CPLAtoGIntBig returns the digits read when they fit in an int64 (it saturates otherwise). |
| Decimal.StrToULL | gcore/gdalpamrasterband.cpp:421-422 | strtoull returns the digits read when they fit in a uint64 (it saturates, and negates after '-'). |
| Decimal.AtoI | gcore/gdalpamrasterband.cpp:1266 | atoi agrees with atoll whenever that value fits in an int. |
| Decimal.ReadSignedDecimal | gcore/gdalpamrasterband.cpp:132-138 | The `%lld` text of an int64 nodata value is read back exactly by strtoll, whatever non-digit text follows. |
| Decimal.ReadUnsignedDecimal | gcore/gdalpamrasterband.cpp:139-145 | The `%llu` text of a uint64 nodata value is read back exactly by strtoull. |
| Decimal.ReadInt32 | gcore/gdalpamrasterband.cpp:205-208 | The `%d` text of an int is read back exactly by atoi. |
| Decimal.Utf8Length | gcore/gdalpamrasterband.cpp:1278 | strlen of a text counts at least one and at most four bytes per character, and exactly one per ASCII character. |
| Decimal.UInt64DecimalLength | gcore/gdalpamrasterband.cpp:1358 | A count takes at most 20 digits, which is what the 22-characters-per-bucket buffer relies on. |
| Histograms.EncodedItem | gcore/gdalpamrasterband.cpp:1363-1384 | The `<HistItem>` holds the counts joined with '|' and a BucketCount text that atoi reads back as the bucket count. |
| Histograms.HistogramToXmlTree | gcore/gdalpamrasterband.cpp:1350-1388 | Fails for more than (INT_MAX - 10) / 12 buckets and for a negative count. Otherwise it returns the encoded item of the first n counts, and no snprintf or strcat into the 22n + 10 byte buffer is ever truncated. |
| Histograms.NextField | gcore/gdalpamrasterband.cpp:1298-1302 | The scan stops just past a '|' or at the end of the text. |
| Histograms.ParseCounts | gcore/gdalpamrasterband.cpp:1294-1303 | The parse reads exactly one count per bucket. |
| Histograms.ParseSpec | gcore/gdalpamrasterband.cpp:1257-1306 | HistMin, HistMax and BucketCount default to 0, 1 and 2 and are written out even on failure. The parse succeeds exactly when 1 <= n <= INT_MAX / 2 and HistCounts is at least 2n - 1 bytes long in UTF-8, as strlen counts it; it then yields n counts and otherwise none. |
| Histograms.ParseHistogram | gcore/gdalpamrasterband.cpp:1257-1306 | The pointer-walking parser computes exactly ParseSpec. |
| Histograms.ScanCounts | gcore/gdalpamrasterband.cpp:1294-1303 | The counting loop reads exactly ParseCounts. |
| Histograms.ReadCount | gcore/gdalpamrasterband.cpp:1296-1302 | One pass of the loop appends the count where the scan stands and moves past the next separator, keeping the loop's invariant. |
| Histograms.SkipField | gcore/gdalpamrasterband.cpp:1299-1302 | The pointer walk moves exactly NextField characters. |
| Histograms.ParseJoin | gcore/gdalpamrasterband.cpp:1294-1303 | Parsing the joined counts gives back every count below 2^63. |
| Histograms.JoinLength | gcore/gdalpamrasterband.cpp:1277-1283 | The joined text of n counts has between 2n - 1 and 21n - 1 characters, so written counts always pass the length test of the parse. |
| Histograms.HistogramRoundTrip | gcore/gdalpamrasterband.cpp:1350-1388 | PamParseHistogram reads back what PamHistogramToXMLTree wrote: the same bucket count and counts, and the bounds as read from their %.16g text. |
| Histograms.FindFrom | gcore/gdalpamrasterband.cpp:1319-1341 | Returns the first matching index at or after the start. It returns None exactly when nothing from there matches. |
| Histograms.FindMatchingHistogram | gcore/gdalpamrasterband.cpp:1311-1344 | Returns the index of the first matching entry; no earlier entry matches, and None means no entry matches or there is no list. |
| Histograms.ApproxOkWidens | gcore/gdalpamrasterband.cpp:1336 | Accepting approximate entries never loses a match and never finds a later one. |
| Histograms.ApproximateEntries | gcore/gdalpamrasterband.cpp:1331-1338 | A strict request skips an approximate entry. Otherwise the approximate flag plays no part in the match. |
| Histograms.EncodedItemMatches | gcore/gdalpamrasterband.cpp:1326-1338 | The entry written for a request matches that request, when its bounds survive the %.16g text up to ARE_REAL_EQUAL. |
| Histograms.RemoveAt | gcore/gdalpamrasterband.cpp:1483 | Removing a child keeps the others in order. |
| Histograms.WithoutMatch | gcore/gdalpamrasterband.cpp:1478-1485 | SetDefaultHistogram removes exactly one entry when one matches the bounds and bucket count with a nonzero IncludeOutOfRange (approximate or not), and none otherwise. |
| Histograms.FirstItem | gcore/gdalpamrasterband.cpp:1520-1538 | The default histogram is the first entry, when there is one. |
| Histograms.DefaultHistogramRoundTrip | gcore/gdalpamrasterband.cpp:1464-1509 | The histogram just set is the first entry, and it parses back to the same bucket count and counts, with IncludeOutOfRange 1 and Approximate 0. |
| Histograms.Lookup | gcore/gdalpamrasterband.cpp:1412-1426 | Without a matching entry, the request goes to the computation unchanged. |
| Histograms.FindAppended | gcore/gdalpamrasterband.cpp:1450-1454 | A matching entry appended after entries that do not match is the first match. |
| Histograms.CachedHistogramHits | gcore/gdalpamrasterband.cpp:1444-1455 | The histogram GetHistogram caches after a miss is found again by the same request, with the same counts. |
| Histograms.MissingBucketCountHit | gcore/gdalpamrasterband.cpp:1419-1422 | An entry without BucketCount answers a request for 0 buckets with 2 counts. |
| Histograms.FailedParseMovesRequest | gcore/gdalpamrasterband.cpp:1419-1420 | A matching entry that does not parse sends an altered request (maximum 1) to the computation. |
| PamRecords.DefaultRecord | gcore/gdalpamrasterband.cpp:310-313 | A fresh record is valid, has no nodata value set and is linked as asked. |
| PamRecords.NoDataExclusive | gcore/gdalpamrasterband.cpp:829-905 | Each nodata setter leaves exactly its own variant set, with the value given, and the other two at their sentinels. Delete leaves none set. Nothing else in the record changes. |
| PamRecords.TypedNoDataGetters | gcore/gdalpamrasterband.cpp:941-1001 | The typed accessor for the band's type reads back the value set. A mismatched accessor fails with its sentinel. GetNoDataValue reports a 64-bit value cast to double, with success. |
| PamRecords.RealNoDataGetter | gcore/gdalpamrasterband.cpp:911-935 | GetNoDataValue succeeds exactly when some variant is set. It returns the real value set, and after a delete it fails with the default. |
| PamRecords.OffsetScaleRoundTrip | gcore/gdalpamrasterband.cpp:1023-1078 | After SetOffset or SetScale the getter gives the value with success, or the record is unchanged because it already held an equal value. The other scalar is untouched. |
| PamRecords.UnitTypeRoundTrip | gcore/gdalpamrasterband.cpp:1100-1125 | GetUnitType returns the text set ("" for null or empty). The dirty test fires exactly when that answer changes. |
| PamRecords.Duplicate | gcore/gdalpamrasterband.cpp:1153 | CSLDuplicate copies a non-empty list and gives null for a null or empty one. |
| PamRecords.CategoryNamesCopy | gcore/gdalpamrasterband.cpp:1144-1156 | The names read back are the names given, and the record stays valid. |
| PamRecords.ColorTableForcesPalette | gcore/gdalpamrasterband.cpp:1175-1198 | The table read back is the one given. A table forces GCI_PaletteIndex, while a null one leaves the interpretation alone. |
| PamRecords.InitOutcomeProperties | gcore/gdalpamrasterband.cpp:273-314 | PamInitialize is idempotent. It keeps an attached record and leaves no unattached record on a band of a PAM dataset. It keeps validity. |
| Description.CategoryNodes | gcore/gdalpamrasterband.cpp:163-180 | One `<Category>` element per name. |
| Description.EntryNodes | gcore/gdalpamrasterband.cpp:185-210 | One `<Entry>` element per colour entry. |
| Description.Serialized | gcore/gdalpamrasterband.cpp:256-264 | A tree that is kept has at least two children. |
| Description.DefaultsSerializeToNothing | gcore/gdalpamrasterband.cpp:256-264 | A record at its defaults, on a band without description or metadata, serializes to nothing. |
| Description.EncodingIsSparse | gcore/gdalpamrasterband.cpp:105-254 | Each child is written exactly when its field is not at its default. The attribute table is written exactly when it has a row or a column, because Serialize returns null otherwise (lines 242-244). The tree is kept exactly when it has two children. |
| Description.DecodeNoData | gcore/gdalpamrasterband.cpp:390-429 | Eight hex bytes win whatever the band type. Malformed bytes fall back to the text as a double. Without bytes the text is read as the band type asks. Exactly one variant ends up set. |
| Description.CategoryList | gcore/gdalpamrasterband.cpp:453-473 | XMLInit collects at most one name per child. |
| Description.CategoryListAccepted | gcore/gdalpamrasterband.cpp:458-470 | When every child is an accepted `<Category>`, the names are their texts, in order. |
| Description.EntryList | gcore/gdalpamrasterband.cpp:484-500 | XMLInit collects at most one entry per child. |
| Description.EntryDefaults | gcore/gdalpamrasterband.cpp:493-497 | A missing c4 reads as 255 and a missing c1..c3 as 0. |
| Description.DecodeNoDataStep | gcore/gdalpamrasterband.cpp:390-429 | The nodata block changes only the nodata fields. |
| Description.DecodeScaling | gcore/gdalpamrasterband.cpp:431-437 | The offset and scale block changes only those two fields. |
| Description.DecodeUnitType | gcore/gdalpamrasterband.cpp:439-441 | The unit block changes only the unit. |
| Description.DecodeInterp | gcore/gdalpamrasterband.cpp:443-448 | The interpretation block changes only the interpretation. |
| Description.DecodeCategories | gcore/gdalpamrasterband.cpp:453-473 | The category block changes only the category names. |
| Description.DecodeColorTable | gcore/gdalpamrasterband.cpp:478-503 | The colour table block changes only the table and the interpretation. |
| Description.DecodeStats | gcore/gdalpamrasterband.cpp:508-531 | The statistics block changes only the statistics. |
| Description.DecodeHistograms | gcore/gdalpamrasterband.cpp:536-549 | The histogram block changes only the cache. |
| Description.DecodeRat | gcore/gdalpamrasterband.cpp:554-561 | The attribute table block changes only the table. |
| Description.DecodeRules | gcore/gdalpamrasterband.cpp:505-561 | Statistics are taken only in pairs, and histograms and the attribute table are replaced wholesale. A colour table forces GCI_PaletteIndex. The link to the dataset is kept. |
| Description.DecodeOffsetScale | gcore/gdalpamrasterband.cpp:431-437 | Either child sets both scalars: a missing offset reads as 0 and a missing scale as 1. |
| Description.CategoryRoundTrip | gcore/gdalpamrasterband.cpp:163-180 | XMLInit reads back the category names SerializeToXML wrote. |
| Description.ShortRoundTrip | gcore/gdalpamrasterband.cpp:205-208 | A colour component written with %d comes back through atoi and the short cast. |
| Description.ColorTableRoundTrip | gcore/gdalpamrasterband.cpp:185-210 | XMLInit reads back the colour table SerializeToXML wrote, entry by entry. |
| Description.NoDataRoundTrip | gcore/gdalpamrasterband.cpp:111-145 | A real nodata value comes back bit for bit whenever le_hex_equiv is written, in particular for NaN and non-integral values. Otherwise it comes back equal as a C double on a band that is neither Int64 nor UInt64; on an Int64 or UInt64 band it comes back as that band's integer variant instead, read with strtoll or strtoull. A 64-bit integer comes back exactly on a band of its type. With no nodata value, the target keeps its own. |
| Description.DecodedNoDataIsStep | gcore/gdalpamrasterband.cpp:390-429 | Only the nodata block of XMLInit touches the nodata fields. |
| Description.FieldsRoundTrip | gcore/gdalpamrasterband.cpp:147-245 | Through SerializeToXML and XMLInit into a fresh record, the unit, category names, colour table, statistics flags and histograms come back. The statistics come back as read from their `%.16g` text. The attribute table comes back when it has a row or a column; otherwise it is lost. The interpretation comes back, except that a colour table makes it GCI_PaletteIndex. |
| Description.SetterBlocksRoundTrip | gcore/gdalpamrasterband.cpp:439-503 | The setter blocks of XMLInit restore the unit, names, table and interpretation that were written, and leave the rest at its defaults. |
| Description.DirectBlocksRoundTrip | gcore/gdalpamrasterband.cpp:508-561 | The blocks written straight into the record restore the statistics flags, histograms and attribute table, and change nothing else. |
| Cloning.CloneNoData | gcore/gdalpamrasterband.cpp:614-673 | The nodata block changes only nodata and keeps the record valid. |
| Cloning.CloneCategoryNames | gcore/gdalpamrasterband.cpp:678-686 | The category block changes only the names and keeps validity. |
| Cloning.CloneScaleOffset | gcore/gdalpamrasterband.cpp:691-709 | The offset/scale block changes only those two fields. |
| Cloning.CloneUnitType | gcore/gdalpamrasterband.cpp:714-724 | The unit block changes only the unit and keeps validity. |
| Cloning.CloneColorInterp | gcore/gdalpamrasterband.cpp:729-738 | The interpretation block changes only the interpretation. |
| Cloning.CloneColorTable | gcore/gdalpamrasterband.cpp:743-752 | The colour table block changes only the table and the interpretation. |
| Cloning.CloneRat | gcore/gdalpamrasterband.cpp:757-769 | The attribute table block changes only the table. |
| Cloning.FullCloneCopies | gcore/gdalpamrasterband.cpp:570-777 | A full clone copies what the source reports: nodata (through its type's accessor), category names, offset and scale (up to C equality), a non-empty unit, a defined interpretation, a colour table with GCI_PaletteIndex, and a non-empty attribute table. Statistics, histograms and the link stay as they were. |
| Cloning.OnlyIfMissingKeeps | gcore/gdalpamrasterband.cpp:570-777 | GCIF_ONLY_IF_MISSING never replaces existing category names, colour table or attribute table. It never re-sets a nodata value the band already reports through the accessor of the source's type (int64, uint64 or double), with NaN equal to NaN for a double. |
| Cloning.ValuesOnlyIfMissing | gcore/gdalpamrasterband.cpp:614-724 | In only-if-missing mode the value blocks keep existing names and a nodata value the band already reports for the source's type, and leave the palette fields alone. |
| Cloning.PaletteOnlyIfMissing | gcore/gdalpamrasterband.cpp:729-769 | In only-if-missing mode the palette blocks keep an existing table and attribute table, and leave nodata and names alone. |
| Cloning.RecloneIsStable | gcore/gdalpamrasterband.cpp:570-777 | After a full clone, an only-if-missing clone from the same source changes nothing, unless the source's table and interpretation disagree. |
| Cloning.NoDataStable | gcore/gdalpamrasterband.cpp:653-671 | A band that holds the nodata value a full clone stored is left alone by the only-if-missing pass. |
| Cloning.ScaleOffsetStable | gcore/gdalpamrasterband.cpp:691-709 | A band that holds the offset and scale a full clone stored is left alone by the only-if-missing pass. |
| PamBand.CollectCategoryNames | gcore/gdalpamrasterband.cpp:458-470 | The loop over `<CategoryNames>` collects exactly CategoryList of the children. |
| PamBand.CollectColorEntries | gcore/gdalpamrasterband.cpp:484-500 | The loop over `<ColorTable>` collects exactly EntryList of the children. |
| PamBand.PamRasterBand.constructor | gcore/gdalpamrasterband.cpp:57-61 | A new band has no record, no description, no metadata and has not marked the dataset dirty. Its MO flags are those GDALRasterBand left, with GMO_PAM_CLASS added. |
| PamBand.PamRasterBand.PamInitialize | gcore/gdalpamrasterband.cpp:273-314 | The record and the dataset's PAM state become InitOutcome and ParentAfterInit. After that, the band is settled: a second call changes nothing. |
| PamBand.PamRasterBand.PamInitializeNoParent | gcore/gdalpamrasterband.cpp:322-326 | Keeps an existing record, or creates an unlinked default one. |
| PamBand.PamRasterBand.MarkPamDirty | gcore/gdalpamrasterband.cpp:332-336 | The dataset's dirty flag rises exactly when the record is linked to it. |
| PamBand.PamRasterBand.PamClear | gcore/gdalpamrasterband.cpp:342-369 | The record is gone. |
| PamBand.PamRasterBand.ResetNoDataValues | gcore/gdalpamrasterband.cpp:815-823 | All three variants become unset at their sentinels, and nothing else changes. |
| PamBand.PamRasterBand.GetNoDataValue | gcore/gdalpamrasterband.cpp:911-935 | Answers from the record exactly when there is one, with success exactly when some variant is set. |
| PamBand.PamRasterBand.GetNoDataValueAsInt64 | gcore/gdalpamrasterband.cpp:941-968 | On a band that is not Int64, fails with the int64 sentinel. |
| PamBand.PamRasterBand.GetNoDataValueAsUInt64 | gcore/gdalpamrasterband.cpp:974-1001 | On a band that is not UInt64, fails with the uint64 sentinel. |
| PamBand.PamRasterBand.SetNoDataValue | gcore/gdalpamrasterband.cpp:829-844 | Hands the call on without a record. Otherwise it stores the real variant alone and marks dirty; GetNoDataValue then returns it with success, and both typed accessors fail. |
| PamBand.PamRasterBand.SetNoDataValueAsInt64 | gcore/gdalpamrasterband.cpp:850-865 | Stores the int64 variant alone and marks dirty. GetNoDataValueAsInt64 returns it on an Int64 band, and GetNoDataValue returns it cast to double. |
| PamBand.PamRasterBand.SetNoDataValueAsUInt64 | gcore/gdalpamrasterband.cpp:871-886 | Stores the uint64 variant alone and marks dirty. GetNoDataValueAsUInt64 returns it on a UInt64 band. |
| PamBand.PamRasterBand.DeleteNoDataValue | gcore/gdalpamrasterband.cpp:892-905 | Clears all variants and marks dirty. Every getter then fails. |
| PamBand.PamRasterBand.SetOffset | gcore/gdalpamrasterband.cpp:1023-1040 | Stores the offset and marks dirty only when it was unset or different. GetOffset then reports it with success. |
| PamBand.PamRasterBand.SetScale | gcore/gdalpamrasterband.cpp:1062-1078 | Stores the scale and marks dirty only when it was unset or different. GetScale then reports it with success. |
| PamBand.PamRasterBand.SetUnitType | gcore/gdalpamrasterband.cpp:1100-1125 | A null or empty text clears the unit. Dirty is marked exactly when the reported unit changes, and GetUnitType then returns the text ("" for null). |
| PamBand.PamRasterBand.SetCategoryNames | gcore/gdalpamrasterband.cpp:1144-1156 | Stores a copy (null for an empty list) and marks dirty. GetCategoryNames then returns the names. |
| PamBand.PamRasterBand.SetColorTable | gcore/gdalpamrasterband.cpp:1175-1198 | Stores the table (or clears it) and marks dirty. GetColorTable returns it, and a table makes GetColorInterpretation GCI_PaletteIndex. |
| PamBand.PamRasterBand.SetColorInterpretation | gcore/gdalpamrasterband.cpp:1204-1219 | Stores the interpretation and marks dirty. GetColorInterpretation returns it. |
| PamBand.PamRasterBand.GetDefaultRAT | gcore/gdalpamrasterband.cpp:1550-1559 | Initializes, then answers the record's table, or hands the call on without a record. |
| PamBand.PamRasterBand.SetDefaultRAT | gcore/gdalpamrasterband.cpp:1565-1587 | Stores the table (or null) and marks dirty. |
| PamBand.PamRasterBand.SetDescription | gcore/gdalpamrasterband.cpp:1241-1250 | Always stores the text. It marks dirty only with a record and a changed text. |
| PamBand.PamRasterBand.SetMetadata | gcore/gdalpamrasterband.cpp:784-793 | Stores the list and marks dirty whenever the record is linked. The MO flags gain GMO_MD_DIRTY, which GDALMajorObject::SetMetadata raises. |
| PamBand.PamRasterBand.SetMetadataItem | gcore/gdalpamrasterband.cpp:799-809 | Initializes and marks dirty whenever the record is linked. The MO flags gain GMO_MD_DIRTY. |
| PamBand.PamRasterBand.GetHistogram | gcore/gdalpamrasterband.cpp:1395-1458 | A match that parses returns its counts and changes nothing. Otherwise the histogram is computed for the (possibly rewritten) request, and an encodable one is appended to the cache and marks dirty. A histogram computed after a miss is then found by the same request. |
| PamBand.PamRasterBand.SetDefaultHistogram | gcore/gdalpamrasterband.cpp:1464-1509 | Removes the first match. It fails without marking dirty when the bucket count cannot be encoded. Otherwise it puts the new entry first and marks dirty, and GetDefaultHistogram then parses back the same counts. |
| PamBand.PamRasterBand.GetDefaultHistogram | gcore/gdalpamrasterband.cpp:1515-1544 | Parses the first entry: success exactly when it parses, and failure otherwise. Without an entry the call is handed on. |
| PamBand.PamRasterBand.CloneMetadataBlock | gcore/gdalpamrasterband.cpp:587-597 | The metadata becomes ClonedMetadata, and the record is untouched. The MO flags gain GMO_MD_DIRTY exactly when SetMetadata is called. |
| PamBand.PamRasterBand.CloneDescriptionBlock | gcore/gdalpamrasterband.cpp:602-609 | The description becomes ClonedDescription, and the record is untouched. |
| PamBand.PamRasterBand.CloneNoDataBlock | gcore/gdalpamrasterband.cpp:614-673 | Through the band's getters and setters, the record becomes CloneNoData of it. |
| PamBand.PamRasterBand.CloneCategoryNamesBlock | gcore/gdalpamrasterband.cpp:678-686 | The record becomes CloneCategoryNames of it. |
| PamBand.PamRasterBand.CloneScaleOffsetBlock | gcore/gdalpamrasterband.cpp:691-709 | The record becomes CloneScaleOffset of it. |
| PamBand.PamRasterBand.CloneUnitTypeBlock | gcore/gdalpamrasterband.cpp:714-724 | The record becomes CloneUnitType of it. |
| PamBand.PamRasterBand.CloneColorInterpBlock | gcore/gdalpamrasterband.cpp:729-738 | The record becomes CloneColorInterp of it. |
| PamBand.PamRasterBand.CloneColorTableBlock | gcore/gdalpamrasterband.cpp:743-752 | The record becomes CloneColorTable of it. |
| PamBand.PamRasterBand.CloneRatBlock | gcore/gdalpamrasterband.cpp:757-769 | The record becomes CloneRat of it. |
| PamBand.PamRasterBand.CloneValueBlocks | gcore/gdalpamrasterband.cpp:614-724 | The record becomes ClonedValues of it. |
| PamBand.PamRasterBand.ClonePaletteBlocks | gcore/gdalpamrasterband.cpp:729-769 | The record becomes ClonedPalette of it. |
| PamBand.PamRasterBand.CloneMajorObjectBlocks | gcore/gdalpamrasterband.cpp:587-609 | The metadata and the description become ClonedMetadata and ClonedDescription, and the record is untouched. |
| PamBand.PamRasterBand.CloneRecordBlocks | gcore/gdalpamrasterband.cpp:614-769 | The record becomes ClonedRecord of it. |
| PamBand.PamRasterBand.CloneBlocks | gcore/gdalpamrasterband.cpp:587-769 | The blocks in source order: the record becomes ClonedRecord of it, and the description and metadata are cloned. |
| PamBand.PamRasterBand.CloneInfo | gcore/gdalpamrasterband.cpp:570-777 | The record becomes ClonedRecord of the initialized record. The description and metadata become ClonedDescription and ClonedMetadata. The MO flags are restored to their value on entry, which clears the GMO_MD_DIRTY flag the metadata copy raises. The call always succeeds. |
| PamBand.PamRasterBand.InitNoDataBlock | gcore/gdalpamrasterband.cpp:390-429 | Through the band's setters, the record becomes DecodeNoDataStep of it. |
| PamBand.PamRasterBand.InitScalingBlock | gcore/gdalpamrasterband.cpp:431-437 | The record becomes DecodeScaling of it. |
| PamBand.PamRasterBand.InitUnitTypeBlock | gcore/gdalpamrasterband.cpp:439-441 | The record becomes DecodeUnitType of it. |
| PamBand.PamRasterBand.InitInterpBlock | gcore/gdalpamrasterband.cpp:443-448 | The record becomes DecodeInterp of it. |
| PamBand.PamRasterBand.InitCategoriesBlock | gcore/gdalpamrasterband.cpp:453-473 | The record becomes DecodeCategories of it. |
| PamBand.PamRasterBand.InitColorTableBlock | gcore/gdalpamrasterband.cpp:478-503 | The record becomes DecodeColorTable of it. |
| PamBand.PamRasterBand.InitSetterBlocks | gcore/gdalpamrasterband.cpp:390-503 | The record becomes DecodeThroughSetters of it. |
| PamBand.PamRasterBand.InitDirectBlocks | gcore/gdalpamrasterband.cpp:508-561 | The record becomes DecodeDirect of it, without marking dirty. |
| PamBand.PamRasterBand.XMLInit | gcore/gdalpamrasterband.cpp:375-564 | The record becomes DecodeRecord of the initialized record. The description becomes the tree's (or ""), and the metadata is replaced when the tree has some. The call succeeds. |
| PamBand.PamRasterBand.SerializeToXML | gcore/gdalpamrasterband.cpp:90-267 | No record gives no tree. A kept tree has at least two children. A default record on a band without description or metadata gives no tree. An attribute table is written exactly when it has a row or a column. |

## Left out

- Text formatting of doubles is not modelled. This covers `%.16g`, `%.14E` and `"nan"` with CPLAtof/CPLAtofM, and GDALGetNoDataValueCastToDouble. Each is a fixed but uninterpreted function of `Numerics`, so results that depend on them (offset, scale, statistics, histogram bounds, nodata without hex) are stated up to those functions.
- `ARE_REAL_EQUAL` is also an uninterpreted function of `Numerics`. The histogram match is stated through it.
- Colour interpretation names are not modelled: GDALGetColorInterpretationName and GDALGetColorInterpretationByName are taken as inverse. The tree holds the interpretation itself.
- The hex codec (CPLBinaryToHex and CPLHexToBinary) is not modelled. The tree holds the decoded bytes.
- Raster attribute table serialization (Serialize, XMLInit, Clone) is not modelled beyond one fact: Serialize returns null for a table with no rows and no columns. A table is an opaque value with its row and column counts, and a copy equals the original.
- Description.ColorTableRoundTrip, Description.FieldsRoundTrip: colour tables are taken to be GPI_RGB palettes; the palette interpretation is not modelled. For a Gray, CMYK or HLS table, SerializeToXML writes entries that GetColorEntryAsRGB leaves unfilled (line 203), and XMLInit rebuilds an RGB table (line 481), so such a table does not come back.
- XML nodes are not modelled as nodes. The tree is held by the first child of each name. Children of `<Histograms>` that are not `<HistItem>` elements are not represented.
- Metadata domains are not modelled. Neither is the merge that GDALMultiDomainMetadata::XMLInit and Serialize perform. The band holds one default-domain list; XMLInit replaces it when the tree has metadata.
- PamBand.PamRasterBand.SetMetadataItem: the update of the metadata list itself (GDALMajorObject) is not modelled; only the initialization and the dirty flag are.
- Allocation failure (`new (std::nothrow)`, VSIMalloc, VSICalloc) is not modelled; allocations succeed. The exception is PamHistogramToXMLTree's buffer for a negative bucket count, which cannot be allocated.
- The dynamic_cast failure in PamInitialize is not modelled. The source itself calls it a programming error that should never happen.
- The dataset side of PAM is not modelled: GDALPamDataset::PamInitialize and the dataset creating band records eagerly. It is reduced to two facts: whether the dataset holds PAM state, and whether its initialization creates it. `gcore/gdal_pam.h` and `gcore/gdalpamdataset.cpp` are not part of this model, and the record's field defaults follow their use in this file.
- The behaviour of GDALRasterBand, when a call is handed on because the band has no record, is not modelled. Such calls report `Delegated` or `Base`. The histogram computation is a parameter.
- Error messages (CPLError) are not modelled, nor is the progress callback of GetHistogram. GMO_IGNORE_UNIMPLEMENTED is modelled only as a flag that CloneInfo raises and then restores; the messages it silences are not modelled.
- PamBand.PamRasterBand.constructor: GDALRasterBand's constructor is not part of this model, so the flags it leaves are a parameter.
- The destructor (lines 79-83) only calls PamClear, which is modelled.
- The second constructor (lines 68-72) differs from the first only in a GDALRasterBand argument, so it is not modelled separately.
- The null `ppanHistogram` path of PamParseHistogram is not modelled; no caller in this file passes null.
- Histogram counts of 2^63 or more are not covered by the round-trip lemmas: CPLAtoGIntBig saturates them. ParseCounts models that saturation.
- PamBand.PamRasterBand.GetHistogram: the memcpy into the caller's buffer is not modelled. The counts are returned as a sequence, so a parse that yields more counts than the caller asked for is visible in the result but not as an overflow.
- PamBand.PamRasterBand.CloneInfo: the dirty flag is stated only as DirtyRule (never lowered, raised only through a linked record), not as the exact sequence of MarkPamDirty calls.
- PamBand.PamRasterBand.XMLInit: the dirty flag is stated only as DirtyRule, as for CloneInfo. The call requires a record after PamInitialize whenever the tree carries statistics, histograms or an attribute table, because the source then dereferences the record even when there is none.
- PamBand.PamRasterBand.ResetNoDataValues requires a record, because the source dereferences it unconditionally.
- PamBand.PamRasterBand.GetOffset, GetScale, GetUnitType, GetCategoryNames, GetColorTable and GetColorInterpretation carry no contract of their own. Their answers are stated in the ensures of the matching setters.
