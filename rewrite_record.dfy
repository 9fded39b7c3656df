/**
 * RewriteRecord (src/RewriteRecord.cpp): drop one allele from a record in
 * place and remap every sample's diploid GT entries to the shorter allele list.
 */
module Rewrite {
  import opened Wrappers
  import opened Vcf

  /** The index check's failure, after which the program exits with status 1. */
  datatype RewriteError = DropIndexOutOfRange(dropIdx: int, nAlleles: int)

  /** The allele list without the element at `i`. */
  function RemoveAt<T>(s: seq<T>, i: nat): (r: seq<T>)
    requires i < |s|
    ensures |r| == |s| - 1
    ensures forall k :: 0 <= k < i ==> r[k] == s[k]
    ensures forall k :: i <= k < |r| ==> r[k] == s[k + 1]
  {
    s[..i] + s[i + 1..]
  }

  /** One raw entry of a sample that does not carry the dropped allele. */
  function RemapEntry(raw: int, dropIdx: int): int
  {
    if GtAllele(raw) > dropIdx then GtUnphased(GtAllele(raw) - 1) else raw
  }

  /** Whether either entry of a sample's pair carries the dropped allele. */
  predicate Hit(first: int, second: int, dropIdx: int)
  {
    GtAllele(first) == dropIdx || GtAllele(second) == dropIdx
  }

  /** The new entry at position `k` of the sample pair (`k` is 0 or 1). */
  function RemapPairAt(first: int, second: int, k: nat, dropIdx: int): int
    requires k < 2
  {
    if Hit(first, second, dropIdx) then GT_MISSING
    else RemapEntry(if k == 0 then first else second, dropIdx)
  }

  /** gt_arr after the per-sample loop: the first 2 * nSamples entries remapped, the rest untouched. */
  function Remapped(gt: seq<int>, nSamples: nat, dropIdx: int): seq<int>
    requires 2 * nSamples <= |gt|
  {
    seq(|gt|, j requires 0 <= j < |gt| =>
      if j < 2 * nSamples then RemapPairAt(gt[j - j % 2], gt[j - j % 2 + 1], j % 2, dropIdx)
      else gt[j])
  }

  /**
   * RewriteRecord: range-check `dropIdx` against the controller's allele count
   * (equal to the record's, as main.cpp:115 arranges), drop the allele, then
   * remap gt, which holds the record's GT entries as bcf_get_format_int32
   * returns them.
   */
  method RewriteRecord(rec: Record, gt: array<int>, controller: Controller, dropIdx: int)
    returns (r: Outcome<RewriteError>)
    requires rec.Valid()
    requires controller.nAlleles == rec.nAllele
    requires 0 <= controller.nSamples && 2 * controller.nSamples <= gt.Length
    modifies rec`nAllele, rec.alleles, gt
    ensures rec.Valid() && rec.alleles == old(rec.alleles)
    ensures r.Fail? <==> dropIdx < 0 || dropIdx >= controller.nAlleles
    ensures r.Fail? ==>
      rec.nAllele == old(rec.nAllele) && rec.alleles[..] == old(rec.alleles[..]) && gt[..] == old(gt[..])
    ensures r.Pass? ==>
      && rec.nAllele == old(rec.nAllele) - 1
      && rec.Alleles() == RemoveAt(old(rec.Alleles()), dropIdx)
      && rec.alleles[rec.nAllele] == None
      && (forall k :: old(rec.nAllele) <= k < rec.alleles.Length ==> rec.alleles[k] == old(rec.alleles[k]))
      && gt[..] == Remapped(old(gt[..]), controller.nSamples, dropIdx)
  {
    if dropIdx < 0 || dropIdx >= controller.nAlleles {
      return Fail(DropIndexOutOfRange(dropIdx, controller.nAlleles));
    }
    DropAllele(rec, dropIdx);
    RemapGenotypes(gt, controller.nSamples, dropIdx);
    return Pass;
  }

  /** Shift the alleles after `dropIdx` one slot left, release the last slot, decrement n_allele. */
  method DropAllele(rec: Record, dropIdx: nat)
    requires rec.Valid() && dropIdx < rec.nAllele
    modifies rec`nAllele, rec.alleles
    ensures rec.Valid() && rec.alleles == old(rec.alleles)
    ensures rec.nAllele == old(rec.nAllele) - 1
    ensures rec.Alleles() == RemoveAt(old(rec.Alleles()), dropIdx)
    ensures rec.alleles[rec.nAllele] == None
    ensures forall k :: old(rec.nAllele) <= k < rec.alleles.Length ==> rec.alleles[k] == old(rec.alleles[k])
  {
    var a := rec.alleles;
    var n := rec.nAllele;
    var i := dropIdx;
    while i < n - 1
      invariant dropIdx <= i <= n - 1
      invariant forall k :: 0 <= k < dropIdx ==> a[k] == old(a[k])
      invariant forall k :: dropIdx <= k < i ==> a[k] == old(a[k + 1])
      invariant forall k :: i <= k < a.Length ==> a[k] == old(a[k])
    {
      a[i] := a[i + 1];
      i := i + 1;
    }
    a[n - 1] := None;
    rec.nAllele := n - 1;
  }

  /** The per-sample loop: remap both raw GT entries of each of the first nSamples samples. */
  method RemapGenotypes(gt: array<int>, nSamples: nat, dropIdx: int)
    requires 2 * nSamples <= gt.Length
    modifies gt
    ensures gt[..] == Remapped(old(gt[..]), nSamples, dropIdx)
  {
    ghost var gt0 := gt[..];
    ghost var target := Remapped(gt0, nSamples, dropIdx);
    var s := 0;
    while s < nSamples
      invariant 0 <= s <= nSamples
      invariant forall j :: 0 <= j < 2 * s ==> gt[j] == target[j]
      invariant forall j :: 2 * s <= j < gt.Length ==> gt[j] == gt0[j]
    {
      RemappedAtSample(gt0, nSamples, dropIdx, s);
      RemapSample(gt, s, dropIdx);
      s := s + 1;
    }
    assert gt[..] == target;
  }

  /** The loop body for sample `s`: both entries are decided from the pair as it was. */
  method RemapSample(gt: array<int>, s: nat, dropIdx: int)
    requires 2 * s + 1 < gt.Length
    modifies gt
    ensures gt[2 * s] == RemapPairAt(old(gt[2 * s]), old(gt[2 * s + 1]), 0, dropIdx)
    ensures gt[2 * s + 1] == RemapPairAt(old(gt[2 * s]), old(gt[2 * s + 1]), 1, dropIdx)
    ensures forall j :: 0 <= j < gt.Length && j != 2 * s && j != 2 * s + 1 ==> gt[j] == old(gt[j])
  {
    if GtAllele(gt[s * 2]) == dropIdx || GtAllele(gt[s * 2 + 1]) == dropIdx {
      gt[s * 2] := GT_MISSING;
      gt[s * 2 + 1] := GT_MISSING;
    } else {
      if GtAllele(gt[s * 2]) > dropIdx {
        gt[s * 2] := GtUnphased(GtAllele(gt[s * 2]) - 1);
      }
      if GtAllele(gt[s * 2 + 1]) > dropIdx {
        gt[s * 2 + 1] := GtUnphased(GtAllele(gt[s * 2 + 1]) - 1);
      }
    }
  }

  /** The two entries Remapped gives sample `s`, in terms of that sample's old pair. */
  lemma RemappedAtSample(gt: seq<int>, nSamples: nat, dropIdx: int, s: nat)
    requires 2 * nSamples <= |gt| && s < nSamples
    ensures Remapped(gt, nSamples, dropIdx)[2 * s] == RemapPairAt(gt[2 * s], gt[2 * s + 1], 0, dropIdx)
    ensures Remapped(gt, nSamples, dropIdx)[2 * s + 1] == RemapPairAt(gt[2 * s], gt[2 * s + 1], 1, dropIdx)
  {
    assert (2 * s) % 2 == 0 && (2 * s + 1) % 2 == 1 && (2 * s + 1) - 1 == 2 * s;
  }

  // ---------------------------------------------------------------------------
  // Properties of the GT remap

  /** Every non-missing allele of the first `nSamples` pairs lies in [0, nAlleles). */
  ghost predicate CallsInRange(gt: seq<int>, nSamples: nat, nAlleles: int)
    requires 2 * nSamples <= |gt|
  {
    forall j :: 0 <= j < 2 * nSamples ==> GtAllele(gt[j]) == -1 || 0 <= GtAllele(gt[j]) < nAlleles
  }

  /** A sample carrying the dropped allele on either entry gets raw 0 on both: missing, unphased. */
  lemma RemapHitSample(gt: seq<int>, nSamples: nat, dropIdx: int, s: nat)
    requires 2 * nSamples <= |gt| && s < nSamples
    requires Hit(gt[2 * s], gt[2 * s + 1], dropIdx)
    ensures Remapped(gt, nSamples, dropIdx)[2 * s] == GT_MISSING
    ensures Remapped(gt, nSamples, dropIdx)[2 * s + 1] == GT_MISSING
    ensures GtAllele(GT_MISSING) == -1
  {
    RemappedAtSample(gt, nSamples, dropIdx, s);
  }

  /**
   * In a sample without the dropped allele, an entry above it becomes the
   * unphased encoding of the allele below, and every other entry, missing
   * ones included, keeps its raw value and so its phase flag.
   */
  lemma RemapOtherSample(gt: seq<int>, nSamples: nat, dropIdx: int, j: nat)
    requires 2 * nSamples <= |gt| && j < 2 * nSamples
    requires !Hit(gt[j - j % 2], gt[j - j % 2 + 1], dropIdx)
    ensures GtAllele(gt[j]) > dropIdx ==>
      && Remapped(gt, nSamples, dropIdx)[j] == GtUnphased(GtAllele(gt[j]) - 1)
      && GtAllele(Remapped(gt, nSamples, dropIdx)[j]) == GtAllele(gt[j]) - 1
      && !GtIsPhased(Remapped(gt, nSamples, dropIdx)[j])
    ensures GtAllele(gt[j]) < dropIdx ==> Remapped(gt, nSamples, dropIdx)[j] == gt[j]
    ensures GtAllele(gt[j]) != dropIdx
  {
    if j % 2 == 1 {
      assert gt[j - j % 2 + 1] == gt[j];
    }
  }

  /** Entries past the first 2 * nSamples are never written. */
  lemma RemapLeavesTail(gt: seq<int>, nSamples: nat, dropIdx: int, j: nat)
    requires 2 * nSamples <= j < |gt|
    ensures Remapped(gt, nSamples, dropIdx)[j] == gt[j]
  {
  }

  /** Each sample's new pair depends on that sample's old pair alone. */
  lemma RemapSamplesIndependent(gt: seq<int>, other: seq<int>, nSamples: nat, dropIdx: int, s: nat)
    requires 2 * nSamples <= |gt| && 2 * nSamples <= |other| && s < nSamples
    requires gt[2 * s] == other[2 * s] && gt[2 * s + 1] == other[2 * s + 1]
    ensures Remapped(gt, nSamples, dropIdx)[2 * s] == Remapped(other, nSamples, dropIdx)[2 * s]
    ensures Remapped(gt, nSamples, dropIdx)[2 * s + 1] == Remapped(other, nSamples, dropIdx)[2 * s + 1]
  {
    RemappedAtSample(gt, nSamples, dropIdx, s);
    RemappedAtSample(other, nSamples, dropIdx, s);
  }

  /** Dropping an allele keeps every non-missing call inside the shorter allele list. */
  lemma RemapKeepsCallsInRange(gt: seq<int>, nSamples: nat, nAlleles: int, dropIdx: int)
    requires 2 * nSamples <= |gt|
    requires 0 <= dropIdx < nAlleles
    requires CallsInRange(gt, nSamples, nAlleles)
    ensures CallsInRange(Remapped(gt, nSamples, dropIdx), nSamples, nAlleles - 1)
  {
    var r := Remapped(gt, nSamples, dropIdx);
    forall j | 0 <= j < 2 * nSamples
      ensures GtAllele(r[j]) == -1 || 0 <= GtAllele(r[j]) < nAlleles - 1
    {
      var first, second := gt[j - j % 2], gt[j - j % 2 + 1];
      assert j - j % 2 < 2 * nSamples && j - j % 2 + 1 < 2 * nSamples;
      if !Hit(first, second, dropIdx) {
        RemapOtherSample(gt, nSamples, dropIdx, j);
      }
    }
  }

  /**
   * Alleles [A, T, G] with T dropped: a sample 1/2 carries T and becomes
   * raw 0/0 (missing, not the 0/0 reference call raw 2 would be); a sample 0/2
   * becomes 0/1.
   */
  lemma DropExample()
    ensures RemoveAt(["A", "T", "G"], 1) == ["A", "G"]
    ensures Remapped([GtUnphased(1), GtUnphased(2), GtUnphased(0), GtUnphased(2)], 2, 1)
         == [GT_MISSING, GT_MISSING, GtUnphased(0), GtUnphased(1)]
  {
    var gt := [GtUnphased(1), GtUnphased(2), GtUnphased(0), GtUnphased(2)];
    var r := Remapped(gt, 2, 1);
    assert r[0] == GT_MISSING && r[1] == GT_MISSING;
    assert r[2] == GtUnphased(0) && r[3] == GtUnphased(1);
  }
}
