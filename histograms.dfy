/** The histogram cache of a PAM band: the <HistItem> entries kept under
    <Histograms>, their text encoding (PamHistogramToXMLTree), their decoding
    (PamParseHistogram) and the first-match lookup (PamFindMatchingHistogram). */
module Histograms {
  import opened PamTypes
  import opened Decimal

  /** One <HistItem> element, by the children it may hold. A real child is
      held as the double that CPLAtofM reads from its text; the integer
      children and HistCounts are held as text. A missing child is None. */
  datatype HistItem = HistItem(
    histMin: Option<Double>,
    histMax: Option<Double>,
    bucketCount: Option<string>,
    includeOutOfRange: Option<string>,
    approximate: Option<string>,
    histCounts: Option<string>)

  /** The largest bucket count PamHistogramToXMLTree accepts: (INT_MAX - 10) / 12. */
  const MAX_CACHED_BUCKETS: int := (INT_MAX - 10) / 12

  /** The counts written as decimal text and separated by '|'. */
  function JoinCounts(c: seq<UInt64>): string
  {
    if |c| == 0 then ""
    else if |c| == 1 then DecimalString(c[0])
    else DecimalString(c[0]) + "|" + JoinCounts(c[1..])
  }

  /** The <HistItem> that PamHistogramToXMLTree builds for a request: the
      bounds as %.16g text, the three integers as %d text and the counts
      joined with '|'. */
  function EncodedItem(num: Numerics, dfMin: Double, dfMax: Double, n: Int32,
                       counts: seq<UInt64>, inc: Int32, approx: Int32): (item: HistItem)
    ensures item.histCounts == Some(JoinCounts(counts))
    ensures item.bucketCount.Some? && AtoI(item.bucketCount.value) == n
  {
    ReadInt32(n, "");
    assert SignedDecimalString(n) + "" == SignedDecimalString(n);
    HistItem(Some(num.general16(dfMin)), Some(num.general16(dfMax)),
             Some(SignedDecimalString(n)), Some(SignedDecimalString(inc)),
             Some(SignedDecimalString(approx)), Some(JoinCounts(counts)))
  }

  /** Appending a count extends the joined text by '|' and its digits. */
  lemma {:induction false} JoinSnoc(c: seq<UInt64>, x: UInt64)
    requires 1 <= |c|
    ensures JoinCounts(c + [x]) == JoinCounts(c) + "|" + DecimalString(x)
  {
    if |c| == 1 {
      assert (c + [x])[1..] == [x];
    } else {
      assert (c + [x])[1..] == c[1..] + [x];
      JoinSnoc(c[1..], x);
    }
  }

  /** PamHistogramToXMLTree: None when the bucket count is too large for the
      text buffer, or negative (the buffer size 22 * (size_t)n + 10 then wraps
      to nearly 2^64 bytes, which cannot be allocated); otherwise the encoded
      item. The loop writes each count with snprintf into a buffer of 22n + 10
      characters; its invariant shows that no write is ever truncated. */
  method HistogramToXmlTree(num: Numerics, dfMin: Double, dfMax: Double, nBuckets: Int32,
                            counts: seq<UInt64>, inc: Int32, approx: Int32)
    returns (r: Option<HistItem>)
    requires nBuckets <= |counts|
    ensures nBuckets < 0 || nBuckets > MAX_CACHED_BUCKETS ==> r == None
    ensures 0 <= nBuckets <= MAX_CACHED_BUCKETS ==>
              r == Some(EncodedItem(num, dfMin, dfMax, nBuckets, counts[..nBuckets], inc, approx))
  {
    if nBuckets > MAX_CACHED_BUCKETS {
      return None;
    }
    if nBuckets < 0 {
      return None;
    }
    var nLen := 22 * nBuckets + 10;
    var buf := "";
    var i := 0;
    while i < nBuckets
      invariant 0 <= i <= nBuckets
      invariant i == 0 ==> buf == ""
      invariant 0 < i ==> buf == JoinCounts(counts[..i]) + (if i < nBuckets then "|" else "")
      invariant |buf| <= 21 * i
    {
      var digits := DecimalString(counts[i]);
      UInt64DecimalLength(counts[i]);
      // snprintf(buf + offset, nLen - offset, ...) has room for the digits
      // and the terminating NUL
      assert |buf| + |digits| < nLen;
      if i > 0 {
        assert counts[..i + 1] == counts[..i] + [counts[i]];
        JoinSnoc(counts[..i], counts[i]);
      } else {
        assert counts[..1] == [counts[0]];
      }
      buf := buf + digits;
      if i < nBuckets - 1 {
        // strcat of "|" still leaves room for the NUL
        assert |buf| + 1 < nLen;
        buf := buf + "|";
      }
      i := i + 1;
    }
    assert buf == JoinCounts(counts[..nBuckets]) by {
      if nBuckets > 0 {
        assert buf == JoinCounts(counts[..nBuckets]) + "";
      }
    }
    return Some(HistItem(Some(num.general16(dfMin)), Some(num.general16(dfMax)),
                         Some(SignedDecimalString(nBuckets)), Some(SignedDecimalString(inc)),
                         Some(SignedDecimalString(approx)), Some(buf)));
  }

  /** How far the scan of PamParseHistogram moves after reading one count:
      past the next '|', or to the end of the text. */
  function NextField(s: string): (k: nat)
    ensures k <= |s|
    ensures 0 < k < |s| ==> s[k - 1] == '|'
  {
    if s == [] then 0 else if s[0] == '|' then 1 else 1 + NextField(s[1..])
  }

  /** A count as PamParseHistogram reads it where the scan stands: what
      CPLAtoGIntBig (atoll) reads, stored as a GUIntBig. */
  function CountAt(s: string): UInt64 {
    AsUnsigned(AtoLL(s))
  }

  /** The counts read from the text, one per field. */
  function ParseCounts(s: string, n: nat): (c: seq<UInt64>)
    ensures |c| == n
  {
    if n == 0 then [] else [CountAt(s)] + ParseCounts(s[NextField(s)..], n - 1)
  }

  /** What PamParseHistogram leaves in its out-parameters and returns. The
      bounds and the bucket count are written even when it fails. */
  datatype HistParse = HistParse(min: Double, max: Double, buckets: Int32,
                                 ok: bool, counts: seq<UInt64>)

  /** PamParseHistogram: HistMin, HistMax and BucketCount default to "0",
      "1" and "2"; a bucket count outside 1 .. INT_MAX / 2, or a HistCounts
      text shorter than 2n - 1 bytes, is rejected. */
  function ParseSpec(item: HistItem): (r: HistParse)
    ensures r.min == item.histMin.GetOr(ZERO) && r.max == item.histMax.GetOr(ONE)
    ensures r.buckets == AtoI(item.bucketCount.GetOr("2"))
    ensures r.ok <==> 1 <= r.buckets <= INT_MAX / 2
                      && Utf8Length(item.histCounts.GetOr("")) >= 2 * r.buckets - 1
    ensures r.ok ==> |r.counts| == r.buckets
    ensures !r.ok ==> r.counts == []
  {
    var min := item.histMin.GetOr(ZERO);
    var max := item.histMax.GetOr(ONE);
    var n := AtoI(item.bucketCount.GetOr("2"));
    if n <= 0 || n > INT_MAX / 2 then HistParse(min, max, n, false, [])
    else
      var text := item.histCounts.GetOr("");
      if Utf8Length(text) < 2 * n - 1 then HistParse(min, max, n, false, [])
      else HistParse(min, max, n, true, ParseCounts(text, n))
  }

  /** The scan loop of PamParseHistogram, pointer by pointer. */
  method ParseHistogram(item: HistItem) returns (r: HistParse)
    ensures r == ParseSpec(item)
  {
    var min := item.histMin.GetOr(ZERO);
    var max := item.histMax.GetOr(ONE);
    var n := AtoI(item.bucketCount.GetOr("2"));
    if n <= 0 || n > INT_MAX / 2 {
      return HistParse(min, max, n, false, []);
    }
    var text := item.histCounts.GetOr("");
    if Utf8Length(text) < 2 * n - 1 {
      return HistParse(min, max, n, false, []);
    }
    var counts := ScanCounts(text, n);
    return HistParse(min, max, n, true, counts);
  }

  /** The loop of PamParseHistogram that reads n counts, moving the scan
      pointer past each separator. */
  method ScanCounts(text: string, n: nat) returns (counts: seq<UInt64>)
    ensures counts == ParseCounts(text, n)
  {
    counts := [];
    var pos := 0;
    var i := 0;
    while i < n
      invariant 0 <= i <= n && 0 <= pos <= |text|
      invariant counts + ParseCounts(text[pos..], n - i) == ParseCounts(text, n)
    {
      counts, pos := ReadCount(text, pos, counts, n - i);
      i := i + 1;
    }
  }

  /** One pass of the loop of PamParseHistogram: the count read where the
      scan stands is appended, and the scan moves past the next separator. */
  method ReadCount(text: string, pos: nat, counts: seq<UInt64>, k: nat)
      returns (counts': seq<UInt64>, pos': nat)
    requires pos <= |text| && 1 <= k
    ensures pos' <= |text|
    ensures counts' + ParseCounts(text[pos'..], k - 1) == counts + ParseCounts(text[pos..], k)
  {
    var next := SkipField(text, pos);
    var c := CountAt(text[pos..]);
    ParseCountsStep(counts, text, pos, k, next, c);
    counts' := counts + [c];
    pos' := next;
  }

  /** One step of the scan: the count read where the scan stands, then the
      rest read from past the next separator. */
  lemma ParseCountsStep(counts: seq<UInt64>, text: string, pos: nat, k: nat, next: nat, c: UInt64)
    requires pos <= |text| && 1 <= k
    requires next == pos + NextField(text[pos..]) && c == CountAt(text[pos..])
    ensures next <= |text|
    ensures counts + ParseCounts(text[pos..], k) == (counts + [c]) + ParseCounts(text[next..], k - 1)
  {
    assert text[pos..][NextField(text[pos..])..] == text[next..];
  }

  /** The pointer walk after each count: forward to the next '|' or the end,
      then past the '|'. */
  method SkipField(text: string, start: nat) returns (pos: nat)
    requires start <= |text|
    ensures pos == start + NextField(text[start..])
  {
    pos := start;
    while pos < |text| && text[pos] != '|'
      invariant start <= pos <= |text|
      invariant NextField(text[start..]) == (pos - start) + NextField(text[pos..])
    {
      assert text[pos..][1..] == text[pos + 1..];
      pos := pos + 1;
    }
    if pos < |text| && text[pos] == '|' {
      pos := pos + 1;
    }
  }

  /** NextField skips a field free of '|' and stops after the separator. */
  lemma {:induction false} NextFieldAfter(s: string, rest: string)
    requires forall i :: 0 <= i < |s| ==> s[i] != '|'
    ensures NextField(s + "|" + rest) == |s| + 1
  {
    if s == [] {
      assert (s + "|" + rest)[0] == '|';
    } else {
      assert (s + "|" + rest)[1..] == s[1..] + "|" + rest;
      NextFieldAfter(s[1..], rest);
    }
  }

  /** Parsing the joined text gives back every count that fits in a signed
      64-bit value. */
  lemma {:induction false} ParseJoin(c: seq<UInt64>)
    requires forall i :: 0 <= i < |c| ==> c[i] < TWO_63
    ensures ParseCounts(JoinCounts(c), |c|) == c
  {
    if |c| == 1 {
      ReadSignedDecimal(c[0], "");
      assert DecimalString(c[0]) + "" == DecimalString(c[0]);
    } else if |c| >= 2 {
      var head := DecimalString(c[0]);
      var rest := JoinCounts(c[1..]);
      var s := head + "|" + rest;
      assert s == head + ("|" + rest);
      ReadSignedDecimal(c[0], "|" + rest);
      NextFieldAfter(head, rest);
      assert s[|head| + 1..] == rest;
      ParseJoin(c[1..]);
    }
  }

  /** The joined text of n counts is between 2n - 1 and 21n characters long. */
  lemma {:induction false} JoinLength(c: seq<UInt64>)
    requires 1 <= |c|
    ensures 2 * |c| - 1 <= |JoinCounts(c)| <= 21 * |c| - 1
  {
    UInt64DecimalLength(c[0]);
    if |c| >= 2 {
      JoinLength(c[1..]);
    }
  }

  /** The counts codec round trip: what PamHistogramToXMLTree writes for
      1 <= n <= MAX_CACHED_BUCKETS buckets whose counts fit in a signed 64-bit
      value, PamParseHistogram reads back as the same bounds (as read from
      their %.16g text), the same bucket count and the same counts. */
  lemma HistogramRoundTrip(num: Numerics, dfMin: Double, dfMax: Double, n: Int32,
                           counts: seq<UInt64>, inc: Int32, approx: Int32)
    requires 1 <= n <= MAX_CACHED_BUCKETS && |counts| == n
    requires forall i :: 0 <= i < n ==> counts[i] < TWO_63
    ensures ParseSpec(EncodedItem(num, dfMin, dfMax, n, counts, inc, approx))
            == HistParse(num.general16(dfMin), num.general16(dfMax), n, true, counts)
  {
    JoinLength(counts);
    ParseJoin(counts);
  }

  /** The test of PamFindMatchingHistogram: bounds equal under ARE_REAL_EQUAL
      (a missing bound reads as 0), the same bucket count, IncludeOutOfRange
      equal as a boolean, and a stored approximate entry only when the caller
      accepts one. */
  predicate Matches(num: Numerics, item: HistItem, dfMin: Double, dfMax: Double,
                    n: Int32, inc: Int32, approxOK: Int32)
  {
    num.areRealEqual(item.histMin.GetOr(ZERO), dfMin)
    && num.areRealEqual(item.histMax.GetOr(ZERO), dfMax)
    && AtoI(item.bucketCount.GetOr("0")) == n
    && (AtoI(item.includeOutOfRange.GetOr("0")) == 0) == (inc == 0)
    && !(approxOK == 0 && AtoI(item.approximate.GetOr("0")) != 0)
  }

  /** The first index at or after `from` whose item matches. */
  function FindFrom(num: Numerics, items: seq<HistItem>, from: nat, dfMin: Double, dfMax: Double,
                    n: Int32, inc: Int32, approxOK: Int32): (r: Option<nat>)
    requires from <= |items|
    ensures r.Some? ==> from <= r.value < |items|
                        && Matches(num, items[r.value], dfMin, dfMax, n, inc, approxOK)
                        && forall j :: from <= j < r.value ==> !Matches(num, items[j], dfMin, dfMax, n, inc, approxOK)
    ensures r.None? ==> forall j :: from <= j < |items| ==> !Matches(num, items[j], dfMin, dfMax, n, inc, approxOK)
    decreases |items| - from
  {
    if from == |items| then None
    else if Matches(num, items[from], dfMin, dfMax, n, inc, approxOK) then Some(from)
    else FindFrom(num, items, from + 1, dfMin, dfMax, n, inc, approxOK)
  }

  /** PamFindMatchingHistogram: the index of the first matching item, or None
      when there is no list or no item matches. */
  function FindMatchingHistogram(num: Numerics, saved: Option<seq<HistItem>>, dfMin: Double, dfMax: Double,
                                 n: Int32, inc: Int32, approxOK: Int32): (r: Option<nat>)
    ensures saved.None? ==> r.None?
    ensures r.Some? ==> saved.Some? && r.value < |saved.value|
                        && Matches(num, saved.value[r.value], dfMin, dfMax, n, inc, approxOK)
                        && forall j :: 0 <= j < r.value ==> !Matches(num, saved.value[j], dfMin, dfMax, n, inc, approxOK)
    ensures r.None? && saved.Some? ==>
              forall j :: 0 <= j < |saved.value| ==> !Matches(num, saved.value[j], dfMin, dfMax, n, inc, approxOK)
  {
    if saved.None? then None else FindFrom(num, saved.value, 0, dfMin, dfMax, n, inc, approxOK)
  }

  /** Accepting approximate entries never finds a later entry, nor loses a
      match: every item matching with approxOK false matches with it true. */
  lemma ApproxOkWidens(num: Numerics, saved: Option<seq<HistItem>>, dfMin: Double, dfMax: Double,
                       n: Int32, inc: Int32, approxOK: Int32)
    requires approxOK != 0
    ensures FindMatchingHistogram(num, saved, dfMin, dfMax, n, inc, 0).Some? ==>
              FindMatchingHistogram(num, saved, dfMin, dfMax, n, inc, approxOK).Some? &&
              FindMatchingHistogram(num, saved, dfMin, dfMax, n, inc, approxOK).value
                <= FindMatchingHistogram(num, saved, dfMin, dfMax, n, inc, 0).value
  {
    var strict := FindMatchingHistogram(num, saved, dfMin, dfMax, n, inc, 0);
    if strict.Some? {
      assert Matches(num, saved.value[strict.value], dfMin, dfMax, n, inc, approxOK);
    }
  }

  /** A stored approximate entry is found by an approximate-tolerant request
      and skipped by a strict one; an exact entry is judged alike by both. */
  lemma ApproximateEntries(num: Numerics, item: HistItem, dfMin: Double, dfMax: Double,
                           n: Int32, inc: Int32, approxOK: Int32)
    ensures AtoI(item.approximate.GetOr("0")) != 0 && approxOK == 0 ==>
              !Matches(num, item, dfMin, dfMax, n, inc, approxOK)
    ensures AtoI(item.approximate.GetOr("0")) == 0 || approxOK != 0 ==>
              (Matches(num, item, dfMin, dfMax, n, inc, approxOK) <==>
               Matches(num, item, dfMin, dfMax, n, inc, 1))
  {
  }

  /** The entry cached for a request is found again by the same request, when
      the bounds survive their %.16g text up to ARE_REAL_EQUAL. */
  lemma EncodedItemMatches(num: Numerics, dfMin: Double, dfMax: Double, n: Int32,
                           counts: seq<UInt64>, inc: Int32, approx: Int32, approxOK: Int32)
    requires num.areRealEqual(num.general16(dfMin), dfMin)
    requires num.areRealEqual(num.general16(dfMax), dfMax)
    requires approx == 0 || approxOK != 0
    ensures Matches(num, EncodedItem(num, dfMin, dfMax, n, counts, inc, approx), dfMin, dfMax, n, inc, approxOK)
  {
    ReadInt32(inc, "");
    ReadInt32(approx, "");
    assert SignedDecimalString(inc) + "" == SignedDecimalString(inc);
    assert SignedDecimalString(approx) + "" == SignedDecimalString(approx);
  }

  /** The list without its element at index k (CPLRemoveXMLChild). */
  function RemoveAt<T>(s: seq<T>, k: nat): (r: seq<T>)
    requires k < |s|
    ensures |r| == |s| - 1
    ensures forall j :: 0 <= j < k ==> r[j] == s[j]
    ensures forall j :: k <= j < |r| ==> r[j] == s[j + 1]
  {
    s[..k] + s[k + 1..]
  }

  /** The list after SetDefaultHistogram's removal step: without its first
      entry that matches the bounds and the bucket count and has a nonzero
      IncludeOutOfRange, approximate or not. */
  function WithoutMatch(num: Numerics, saved: Option<seq<HistItem>>, dfMin: Double, dfMax: Double,
                        n: Int32): (r: Option<seq<HistItem>>)
    ensures r.None? <==> saved.None?
    ensures saved.Some? ==> |r.value| == |saved.value| || |r.value| == |saved.value| - 1
    ensures saved.Some? && FindMatchingHistogram(num, saved, dfMin, dfMax, n, 1, 1).None? ==> r == saved
    ensures FindMatchingHistogram(num, saved, dfMin, dfMax, n, 1, 1).Some? ==> r.Some? && |r.value| == |saved.value| - 1
  {
    match FindMatchingHistogram(num, saved, dfMin, dfMax, n, 1, 1)
    case None => saved
    case Some(k) => Some(RemoveAt(saved.value, k))
  }

  /** The first <HistItem> of the list, which GetDefaultHistogram reports. */
  function FirstItem(saved: Option<seq<HistItem>>): (r: Option<HistItem>)
    ensures r.Some? <==> saved.Some? && |saved.value| > 0
  {
    if saved.Some? && |saved.value| > 0 then Some(saved.value[0]) else None
  }

  /** The default histogram just set is the one GetDefaultHistogram reads:
      its counts come back unchanged when they fit in a signed 64-bit value,
      with IncludeOutOfRange 1 and Approximate 0 stored beside them. */
  lemma DefaultHistogramRoundTrip(num: Numerics, saved: Option<seq<HistItem>>, dfMin: Double, dfMax: Double,
                                  n: Int32, counts: seq<UInt64>)
    requires 1 <= n <= MAX_CACHED_BUCKETS && |counts| == n
    requires forall i :: 0 <= i < n ==> counts[i] < TWO_63
    ensures var item := EncodedItem(num, dfMin, dfMax, n, counts, 1, 0);
            var after := Some([item] + WithoutMatch(num, saved, dfMin, dfMax, n).GetOr([]));
            FirstItem(after) == Some(item)
            && ParseSpec(item) == HistParse(num.general16(dfMin), num.general16(dfMax), n, true, counts)
            && item.includeOutOfRange == Some("1") && item.approximate == Some("0")
  {
    HistogramRoundTrip(num, dfMin, dfMax, n, counts, 1, 0);
  }

  /** The arguments of a GetHistogram request. */
  datatype HistRequest = HistRequest(min: Double, max: Double, buckets: Int32,
                                     includeOutOfRange: Int32, approxOK: Int32)

  /** What GetHistogram makes of its cache: the counts of a matching entry
      that parses, or the request to compute instead. */
  datatype CacheLookup = Hit(counts: seq<UInt64>) | Miss(request: HistRequest)

  /** The cache step of GetHistogram. PamParseHistogram writes the bounds and
      the bucket count of the entry it reads into the request's own variables
      before it can fail, so a matching entry that does not parse leaves the
      request altered for the computation that follows. */
  function Lookup(num: Numerics, saved: Option<seq<HistItem>>, req: HistRequest): (l: CacheLookup)
    ensures var m := FindMatchingHistogram(num, saved, req.min, req.max, req.buckets,
                                           req.includeOutOfRange, req.approxOK);
            m.None? ==> l == Miss(req)
  {
    match FindMatchingHistogram(num, saved, req.min, req.max, req.buckets, req.includeOutOfRange, req.approxOK)
    case None => Miss(req)
    case Some(k) =>
      var p := ParseSpec(saved.value[k]);
      if p.ok then Hit(p.counts) else Miss(req.(min := p.min, max := p.max, buckets := p.buckets))
  }

  /** The first match in a list extended by one matching item, when nothing
      before it matches, is that item. */
  lemma FindAppended(num: Numerics, items: seq<HistItem>, x: HistItem, dfMin: Double, dfMax: Double,
                     n: Int32, inc: Int32, approxOK: Int32)
    requires forall j :: 0 <= j < |items| ==> !Matches(num, items[j], dfMin, dfMax, n, inc, approxOK)
    requires Matches(num, x, dfMin, dfMax, n, inc, approxOK)
    ensures FindMatchingHistogram(num, Some(items + [x]), dfMin, dfMax, n, inc, approxOK) == Some(|items|)
  {
    assert (items + [x])[|items|] == x;
    assert forall j :: 0 <= j < |items| ==> (items + [x])[j] == items[j];
  }

  /** What GetHistogram caches after computing a histogram it did not find
      is found again by the same request, as long as no earlier entry
      matches it, the bounds survive their %.16g text up to ARE_REAL_EQUAL,
      and the counts fit in a signed 64-bit value. */
  lemma CachedHistogramHits(num: Numerics, saved: Option<seq<HistItem>>, req: HistRequest, c: seq<UInt64>)
    requires FindMatchingHistogram(num, saved, req.min, req.max, req.buckets,
                                   req.includeOutOfRange, req.approxOK).None?
    requires 1 <= req.buckets <= MAX_CACHED_BUCKETS && req.buckets <= |c|
    requires forall i :: 0 <= i < req.buckets ==> c[i] < TWO_63
    requires num.areRealEqual(num.general16(req.min), req.min)
    requires num.areRealEqual(num.general16(req.max), req.max)
    ensures var item := EncodedItem(num, req.min, req.max, req.buckets, c[..req.buckets],
                                    req.includeOutOfRange, req.approxOK);
            Lookup(num, Some(saved.GetOr([]) + [item]), req) == Hit(c[..req.buckets])
  {
    var item := EncodedItem(num, req.min, req.max, req.buckets, c[..req.buckets],
                            req.includeOutOfRange, req.approxOK);
    EncodedItemMatches(num, req.min, req.max, req.buckets, c[..req.buckets],
                       req.includeOutOfRange, req.approxOK, req.approxOK);
    FindAppended(num, saved.GetOr([]), item, req.min, req.max, req.buckets,
                 req.includeOutOfRange, req.approxOK);
    HistogramRoundTrip(num, req.min, req.max, req.buckets, c[..req.buckets],
                       req.includeOutOfRange, req.approxOK);
  }

  /** An entry without BucketCount matches a request for 0 buckets (the
      match reads a missing count as 0) but parses as 2 buckets (the parse
      reads it as 2): GetHistogram then copies two counts for a request of
      none. */
  lemma MissingBucketCountHit(num: Numerics, item: HistItem, req: HistRequest)
    requires item.bucketCount.None? && Utf8Length(item.histCounts.GetOr("")) >= 3
    requires req.buckets == 0
    requires Matches(num, item, req.min, req.max, req.buckets, req.includeOutOfRange, req.approxOK)
    ensures Lookup(num, Some([item]), req).Hit?
    ensures |Lookup(num, Some([item]), req).counts| == 2
  {
    assert DecimalString(2) == "2";
    ReadInt32(2, "");
    assert "2" + "" == "2";
  }

  /** An entry without HistMax matches a request whose maximum is 0 (the
      match reads a missing maximum as 0); if its counts do not parse, the
      histogram is then computed for a maximum of 1 (the parse reads a
      missing maximum as 1). */
  lemma FailedParseMovesRequest(num: Numerics, item: HistItem, req: HistRequest)
    requires item.histMax.None? && !ParseSpec(item).ok
    requires Matches(num, item, req.min, req.max, req.buckets, req.includeOutOfRange, req.approxOK)
    ensures Lookup(num, Some([item]), req).Miss?
    ensures Lookup(num, Some([item]), req).request.max == ONE
  {
  }
}
