/** The Asymmetric Namespace Access log page of `spdk_nvme_identify`: the size that is
    requested for it and the walk over its variable-length descriptors (section
    5.14.1.12 of NVMe 1.4). */
module AnaWalk {
  import opened Arith
  import opened ByteOrder

  const PAGE_HEADER := 16     // struct spdk_nvme_ana_page
  const DESC_HEADER := 32     // struct spdk_nvme_ana_group_descriptor without NSIDs

  /** A group descriptor; `middle` holds its change count, state and reserved bytes. */
  datatype Desc = Desc(groupId: nat, middle: seq<Byte>, nsids: seq<nat>)

  ghost predicate ValidDesc(d: Desc) {
    && d.groupId < 0x1_0000_0000 && |d.middle| == DESC_HEADER - 8 && |d.nsids| < 0x1_0000_0000
    && forall k :: 0 <= k < |d.nsids| ==> d.nsids[k] < 0x1_0000_0000
  }

  function EncodeNsids(nsids: seq<nat>): (r: seq<Byte>)
    ensures |r| == 4 * |nsids|
  {
    if nsids == [] then [] else Bytes(nsids[0], 4) + EncodeNsids(nsids[1..])
  }

  function Encode(d: Desc): seq<Byte> {
    Bytes(d.groupId, 4) + Bytes(|d.nsids|, 4) + d.middle + EncodeNsids(d.nsids)
  }

  function EncodeAll(ds: seq<Desc>): seq<Byte> {
    if ds == [] then [] else Encode(ds[0]) + EncodeAll(ds[1..])
  }

  function TotalNsids(ds: seq<Desc>): nat {
    if ds == [] then 0 else |ds[0].nsids| + TotalNsids(ds[1..])
  }

  /** `g_ana_log_page_size`. */
  function PageSize(nanagrpid: nat, activeNs: nat): nat {
    PAGE_HEADER + nanagrpid * DESC_HEADER + activeNs * 4
  }

  /** The page is the header and the descriptors, cut off or padded to its size. */
  ghost predicate Holds(page: seq<Byte>, ds: seq<Desc>) {
    && PAGE_HEADER <= |page| < 0x1_0000_0000
    && (forall i :: 0 <= i < |ds| ==> ValidDesc(ds[i]))
    && |ds| < 0x1_0000 && page[8..10] == Bytes(|ds|, 2)
    && EncodeAll(ds) <= page[PAGE_HEADER..]
  }

  /** A descriptor byte by byte: group 0x102 with the namespaces 3 and 0x405. */
  lemma EncodedExample()
    ensures var zeros: seq<Byte> := seq(DESC_HEADER - 8, _ => 0);
      Encode(Desc(0x102, zeros, [3, 0x405])) == [2, 1, 0, 0, 2, 0, 0, 0] + zeros + [3, 0, 0, 0, 5, 4, 0, 0]
  {
    FourBytes(0x102);
    FourBytes(2);
    FourBytes(3);
    FourBytes(0x405);
    assert [3, 0x405][1..] == [0x405] && [0x405][1..] == [];
    assert EncodeNsids([0x405]) == [5, 4, 0, 0];
  }

  lemma FourBytes(x: nat)
    requires x < 0x1_0000
    ensures Bytes(x, 4) == [x % 256, x / 256, 0, 0]
  {
    assert Bytes(x / 0x1_0000, 2) == [0, 0];
  }

  lemma {:induction false} EncodedSize(ds: seq<Desc>)
    requires forall i :: 0 <= i < |ds| ==> ValidDesc(ds[i])
    ensures |EncodeAll(ds)| == DESC_HEADER * |ds| + 4 * TotalNsids(ds)
  {
    if ds != [] { EncodedSize(ds[1..]); }
  }

  /** The comment's claim that the size is enough: what a controller returns fits the
      buffer exactly when its groups and namespaces, weighted by their sizes, are at
      most the announced ones; so it fits when both are. */
  lemma SizeIsEnoughIff(ds: seq<Desc>, nanagrpid: nat, activeNs: nat)
    requires forall i :: 0 <= i < |ds| ==> ValidDesc(ds[i])
    ensures PAGE_HEADER + |EncodeAll(ds)| <= PageSize(nanagrpid, activeNs) <==>
              8 * |ds| + TotalNsids(ds) <= 8 * nanagrpid + activeNs
    ensures |ds| <= nanagrpid && TotalNsids(ds) <= activeNs ==>
              PAGE_HEADER + |EncodeAll(ds)| <= PageSize(nanagrpid, activeNs)
  {
    EncodedSize(ds);
  }

  lemma U32RoundTrip(x: nat)
    requires x < 0x1_0000_0000
    ensures LittleEndian(Bytes(x, 4)) == x
  {
    FieldCapacities();
    BytesRoundTrip(x, 4);
  }

  function ReadU32(s: seq<Byte>, at: nat): nat
    requires at + 4 <= |s|
  {
    LittleEndian(s[at..at + 4])
  }

  /** NSID `k` of an encoded list. */
  lemma {:induction false} NsidAt(nsids: seq<nat>, k: nat)
    requires k < |nsids| && nsids[k] < 0x1_0000_0000
    ensures ReadU32(EncodeNsids(nsids), 4 * k) == nsids[k]
  {
    var s := EncodeNsids(nsids);
    if k == 0 {
      assert s[0..4] == Bytes(nsids[0], 4);
      U32RoundTrip(nsids[0]);
    } else {
      NsidAt(nsids[1..], k - 1);
      var rest := EncodeNsids(nsids[1..]);
      assert s[4 * k..4 * k + 4] == rest[4 * (k - 1)..4 * (k - 1) + 4];
    }
  }

  /** The fields of the descriptor at the start of a copied buffer. */
  lemma FieldsAt(copied: seq<Byte>, d: Desc)
    requires ValidDesc(d) && Encode(d) <= copied
    ensures |Encode(d)| == DESC_HEADER + 4 * |d.nsids| <= |copied|
    ensures ReadU32(copied, 0) == d.groupId && ReadU32(copied, 4) == |d.nsids|
    ensures copied[8..DESC_HEADER] == d.middle
    ensures forall k :: 0 <= k < |d.nsids| ==> ReadU32(copied, DESC_HEADER + 4 * k) == d.nsids[k]
  {
    hide LittleEndian, Bytes;
    assert copied[0..4] == Bytes(d.groupId, 4);
    assert copied[4..8] == Bytes(|d.nsids|, 4);
    U32RoundTrip(d.groupId);
    U32RoundTrip(|d.nsids|);
    var list := EncodeNsids(d.nsids);
    assert copied[DESC_HEADER..DESC_HEADER + |list|] == list;
    forall k | 0 <= k < |d.nsids| ensures ReadU32(copied, DESC_HEADER + 4 * k) == d.nsids[k] {
      NsidAt(d.nsids, k);
      var x := DESC_HEADER + 4 * k;
      SliceOfSlice(copied, DESC_HEADER, DESC_HEADER + |list|, 4 * k, 4 * k + 4);
    }
  }

  /** The walk of `print_controller`. For every page that holds its descriptors it
      visits all of them in order; the rest of the page is copied each time, so that
      the copied bytes always end at the end of the buffer, and neither the length left
      nor the reads of the NSIDs leave it. */
  method Walk(page: seq<Byte>, ghost ds: seq<Desc>) returns (seen: seq<Desc>)
    requires Holds(page, ds)
    ensures seen == ds
  {
    hide LittleEndian, Bytes, Encode, ValidDesc;
    var count := LittleEndian(page[8..10]);
    assert count == |ds| by { FieldCapacities(); BytesRoundTrip(|ds|, 2); }
    var orig, copyLen := PAGE_HEADER, |page| - PAGE_HEADER;
    seen := [];
    for i := 0 to count
      invariant PAGE_HEADER <= orig && 0 <= copyLen && orig + copyLen == |page|
      invariant seen == ds[..i] && EncodeAll(ds[i..]) <= page[orig..]
    {
      var copied := page[orig..orig + copyLen];
      ghost var d := ds[i];
      assert ds[i..][1..] == ds[i + 1..];
      assert copied == page[orig..];
      assert Encode(d) <= copied && ValidDesc(d);
      FieldsAt(copied, d);
      var groupId, n := ReadU32(copied, 0), ReadU32(copied, 4);
      var nsids := [];
      for j := 0 to n
        invariant nsids == d.nsids[..j]
      {
        assert DESC_HEADER + 4 * j + 4 <= copyLen;
        nsids := nsids + [ReadU32(copied, DESC_HEADER + 4 * j)];
      }
      seen := seen + [Desc(groupId, copied[8..DESC_HEADER], nsids)];
      assert nsids == d.nsids && Desc(groupId, copied[8..DESC_HEADER], nsids) == d;
      var descSize := DESC_HEADER + 4 * n;
      assert descSize <= copyLen;
      assert page[orig..][|Encode(d)|..] == page[orig + descSize..];
      orig := orig + descSize;
      copyLen := copyLen - descSize;
    }
    assert ds[..count] == ds;
  }
}
