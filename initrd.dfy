/**
 * The initial ramdisk image: a read-only byte slice embedded in the kernel,
 * with bounds-checked access to sub-slices.
 */
module InitRd {
  import opened Prelude

  datatype InitRd = InitRd(data: seq<Byte>)
  {
    /** The image must fit in the address space. */
    ghost predicate Valid()
    {
      |data| < U64_LIMIT
    }

    function GetData(): (r: seq<Byte>)
      ensures |r| == |data| && forall i :: 0 <= i < |r| ==> r[i] == data[i]
    {
      data
    }

    function GetSize(): (r: U64)
      requires Valid()
      ensures r == |GetData()|
    {
      |data|
    }

    /**
     * The `length` bytes starting at `offset`, or `None` when the offset lies
     * past the end, the end offset overflows 64 bits, or it lies past the end.
     */
    function ReadSlice(offset: U64, length: U64): (r: Option<seq<Byte>>)
      requires Valid()
      ensures r.Some? <==> offset + length <= |data|
      ensures r.Some? ==> |r.value| == length
                          && forall i :: 0 <= i < length ==> r.value[i] == data[offset + i]
    {
      if offset > |data| || offset + length >= U64_LIMIT || offset + length > |data| then None
      else Some(data[offset..offset + length])
    }
  }

  /** Reading the whole image returns it unchanged; reading nothing at the end returns the empty slice. */
  lemma ReadSliceExtremes(rd: InitRd)
    requires rd.Valid()
    ensures rd.ReadSlice(0, rd.GetSize()) == Some(rd.GetData())
    ensures rd.ReadSlice(rd.GetSize(), 0) == Some([])
  {
    assert rd.data[0..|rd.data|] == rd.data;
  }

  /** Two adjacent in-bounds slices concatenate to the slice that spans both. */
  lemma {:induction false} ReadSliceSplit(rd: InitRd, offset: U64, n1: U64, n2: U64)
    requires rd.Valid()
    requires offset + n1 + n2 <= |rd.data|
    ensures rd.ReadSlice(offset, n1 + n2).Some?
    ensures rd.ReadSlice(offset, n1 + n2).value
            == rd.ReadSlice(offset, n1).value + rd.ReadSlice(offset + n1, n2).value
  {
    var whole := rd.ReadSlice(offset, n1 + n2).value;
    var left := rd.ReadSlice(offset, n1).value;
    var right := rd.ReadSlice(offset + n1, n2).value;
    assert |whole| == |left + right|;
    forall i | 0 <= i < |whole|
      ensures whole[i] == (left + right)[i]
    {
      if i >= n1 {
        assert right[i - n1] == rd.data[offset + n1 + (i - n1)];
      }
    }
  }
}
