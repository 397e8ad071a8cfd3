/** Values shared by the model of GDAL's per-band Persistent Auxiliary Metadata
    (PAM): C doubles by their IEEE 754 bit pattern, the fixed-width integers of
    the nodata API, the band's element type, and the palette and attribute-table
    values that the PAM record holds as owned copies. */
module PamTypes {

  datatype Option<+T> = None | Some(value: T) {
    function GetOr(default: T): T {
      match this
      case Some(v) => v
      case None => default
    }
  }

  const INT_MAX: int := 0x7FFF_FFFF
  const TWO_63: int := 0x8000_0000_0000_0000
  const TWO_64: int := 0x1_0000_0000_0000_0000

  /** C's int64_t / GIntBig. */
  type Int64 = x: int | -TWO_63 <= x < TWO_63
  /** C's uint64_t / GUIntBig. */
  type UInt64 = x: int | 0 <= x < TWO_64
  /** C's int. */
  type Int32 = x: int | -0x8000_0000 <= x < 0x8000_0000
  /** C's short, the width of a GDALColorEntry component. */
  type Short = x: int | -0x8000 <= x < 0x8000

  /** The conversion of a GIntBig to a GUIntBig: two's complement wrap-around. */
  function AsUnsigned(v: Int64): (u: UInt64)
    ensures 0 <= v ==> u == v
    ensures v < 0 ==> u == v + TWO_64
  {
    if v < 0 then v + TWO_64 else v
  }

  /** static_cast<short> of an int: the value modulo 2^16, as a signed short. */
  function ToShort(v: int): (s: Short)
    ensures -0x8000 <= v < 0x8000 ==> s == v
    ensures (s - v) % 0x1_0000 == 0
  {
    var m := v % 0x1_0000;
    if m < 0x8000 then m else m - 0x1_0000
  }

  /** The conversion of a 64-bit integer to an int: the value modulo 2^32, as
      a signed int. */
  function ToInt32(v: int): (s: Int32)
    ensures -0x8000_0000 <= v < 0x8000_0000 ==> s == v
    ensures (s - v) % 0x1_0000_0000 == 0
  {
    var m := v % 0x1_0000_0000;
    if m < 0x8000_0000 then m else m - 0x1_0000_0000
  }

  /** A C double, by its IEEE 754 binary64 bit pattern. */
  datatype Double = Double(bits: bv64)

  const ZERO: Double := Double(0)
  const ONE: Double := Double(0x3FF0_0000_0000_0000)

  function Exponent(d: Double): bv64 { (d.bits >> 52) & 0x7FF }
  function Mantissa(d: Double): bv64 { d.bits & 0xF_FFFF_FFFF_FFFF }

  predicate IsNaN(d: Double) { Exponent(d) == 0x7FF && Mantissa(d) != 0 }
  predicate IsZero(d: Double) { d.bits & 0x7FFF_FFFF_FFFF_FFFF == 0 }

  /** C's `a == b` on doubles: a NaN equals nothing, and +0 equals -0. */
  predicate FEq(a: Double, b: Double) {
    !IsNaN(a) && !IsNaN(b) && (a.bits == b.bits || (IsZero(a) && IsZero(b)))
  }

  lemma FEqReflexive(d: Double)
    ensures FEq(d, d) <==> !IsNaN(d)
  {
  }

  /** C's `d == floor(d)`: true of the infinities and of the finite whole
      numbers, false of NaN and of every value with a fractional part. */
  predicate IsIntegral(d: Double) {
    var e := Exponent(d);
    if e == 0x7FF then Mantissa(d) == 0
    else if e < 1023 then IsZero(d)
    else if e >= 1075 then true
    // the 1075 - e low bits of the mantissa are the fraction
    else Mantissa(d) << (e - 1011) == 0
  }

  /** A byte, held in the low eight bits of a 64-bit word. */
  type Byte = b: bv64 | b <= 0xFF

  /** The eight bytes that SerializeToXML hex-encodes into le_hex_equiv: the
      double in memory on a little-endian host, which is what CPL_LSBPTR64
      produces on every host. */
  function LittleEndianBytes(d: Double): (b: seq<Byte>)
    ensures |b| == 8
  {
    var x := d.bits;
    [x & 0xFF, (x >> 8) & 0xFF, (x >> 16) & 0xFF, (x >> 24) & 0xFF,
     (x >> 32) & 0xFF, (x >> 40) & 0xFF, (x >> 48) & 0xFF, (x >> 56) & 0xFF]
  }

  /** The double that XMLInit reads back from eight little-endian bytes. */
  function FromLittleEndian(b: seq<Byte>): Double
    requires |b| == 8
  {
    var w: seq<bv64> := b;
    Double(w[0] | (w[1] << 8) | (w[2] << 16) | (w[3] << 24) |
           (w[4] << 32) | (w[5] << 40) | (w[6] << 48) | (w[7] << 56))
  }

  /** The le_hex_equiv side channel reproduces the exact bit pattern, NaN
      payloads and the sign of zero included. */
  lemma LittleEndianRoundTrip(d: Double)
    ensures FromLittleEndian(LittleEndianBytes(d)) == d
  {
  }

  /** The text conversions of the C library and of CPL, and GDAL's tolerant
      real comparison, none of which this model interprets. Each is a fixed
      function; the model only ever applies them.
      - general16(d): what CPLAtof/CPLAtofM read back from printf("%.16g", d);
      - scientific14(d): what CPLAtof reads back from the nodata text written
        for d ("nan" for a NaN, printf("%.14E", d) otherwise); the two
        following fields are what strtoll and strtoull read from that text;
      - decimalAsDouble(s): what CPLAtof reads from a decimal integer text;
      - int64AsDouble / uint64AsDouble: GDALGetNoDataValueCastToDouble;
      - areRealEqual: the ARE_REAL_EQUAL comparison of gdal_priv.h. */
  datatype Numerics = Numerics(
    general16: Double -> Double,
    scientific14: Double -> Double,
    scientific14AsInt64: Double -> Int64,
    scientific14AsUInt64: Double -> UInt64,
    decimalAsDouble: string -> Double,
    int64AsDouble: Int64 -> Double,
    uint64AsDouble: UInt64 -> Double,
    areRealEqual: (Double, Double) -> bool)

  /** The band's element type (eDataType); only the two 64-bit integer types
      change the behaviour of the PAM layer. */
  datatype DataType = Int64Data | UInt64Data | OtherData

  /** GDALColorInterp; only GCI_Undefined and GCI_PaletteIndex have a role of
      their own here, the other interpretations are told apart by their code. */
  datatype ColorInterp = Undefined | PaletteIndex | OtherInterp(code: nat)

  datatype ColorEntry = ColorEntry(c1: Short, c2: Short, c3: Short, c4: Short)

  /** A GDALColorTable of the GPI_RGB palette interpretation, by its entries
      in index order. */
  datatype ColorTable = ColorTable(entries: seq<ColorEntry>)

  /** A GDALRasterAttributeTable: its shape and an opaque payload. */
  datatype Rat = Rat(rowCount: nat, columnCount: nat, payload: seq<string>)
  {
    /** The table has a row or a column. GDALRasterAttributeTable::Serialize,
        which is not part of this model, returns null for one that has
        neither. */
    predicate HasContent() {
      rowCount != 0 || columnCount != 0
    }
  }

  /** C's tolower in the "C" locale. */
  function ToLower(c: char): char {
    if 'A' <= c <= 'Z' then (c as int + 32) as char else c
  }

  /** CPL's EQUAL: ASCII case-insensitive string equality. */
  predicate EqualNoCase(a: string, b: string) {
    |a| == |b| && forall i :: 0 <= i < |a| ==> ToLower(a[i]) == ToLower(b[i])
  }

  lemma EqualNoCaseReflexive(a: string)
    ensures EqualNoCase(a, a)
  {
  }
}
