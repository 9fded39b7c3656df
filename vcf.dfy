/**
 * The parts of htslib's variant record (bcf1_t), header (bcf_hdr_t) and the
 * session Controller that the filter and the rewrite read or change.
 */
module Vcf {
  import opened Wrappers

  /** One entry of the header's ID dictionary and whether it has an INFO definition. */
  datatype HeaderId = HeaderId(key: string, isInfo: bool)

  /** The header, as the sequence of ids `bcf_hdr_int2id(header, BCF_DT_ID, i)` enumerates. */
  type Header = seq<HeaderId>

  /** Keys that `bcf_hdr_idinfo_exists(header, BCF_HL_INFO, i)` accepts. */
  function HeaderInfoKeys(header: Header): set<string>
  {
    set i | 0 <= i < |header| && header[i].isInfo :: header[i].key
  }

  /** Walking the ID dictionary one entry further adds that entry's key when it is an INFO id. */
  lemma HeaderInfoKeysAppend(header: Header, e: HeaderId)
    ensures HeaderInfoKeys(header + [e]) == HeaderInfoKeys(header) + (if e.isInfo then {e.key} else {})
  {
    var h := header + [e];
    forall k | k in HeaderInfoKeys(h)
      ensures k in HeaderInfoKeys(header) + (if e.isInfo then {e.key} else {})
    {
      var i :| 0 <= i < |h| && h[i].isInfo && h[i].key == k;
      if i < |header| {
        assert header[i] == h[i];
      }
    }
    forall k | k in HeaderInfoKeys(header)
      ensures k in HeaderInfoKeys(h)
    {
      var i :| 0 <= i < |header| && header[i].isInfo && header[i].key == k;
      assert h[i] == header[i];
    }
    if e.isInfo {
      assert h[|header|] == e;
    }
  }

  /**
   * The INFO entries `bcf_get_info_*(header, record, key, ...)` can read: the
   * lookup goes through the header, so only keys with an INFO definition there
   * are found.
   */
  function Readable(info: map<string, Values>, header: Header): map<string, Values>
  {
    map k | k in info && k in HeaderInfoKeys(header) :: info[k]
  }

  /** Per-run sample count (main.cpp:68) and per-record allele count (main.cpp:115). */
  datatype Controller = Controller(nSamples: int, nAlleles: int)

  /** INFO and FORMAT values; the codec's typed values are all read as numbers here. */
  type Values = seq<real>

  /**
   * A decoded record. `alleles[..nAllele]` are the live alleles (index 0 is the
   * reference); a slot set to None is a released allele pointer.
   */
  class Record {
    var rid: int
    var pos: int
    var qual: real
    var alleles: array<Option<string>>
    var nAllele: nat
    var info: map<string, Values>
    var format: map<string, Values>

    ghost predicate Valid()
      reads this
    {
      nAllele <= alleles.Length
    }

    /** The live allele list. */
    ghost function Alleles(): seq<Option<string>>
      reads this, alleles
      requires Valid()
    {
      alleles[..nAllele]
    }

    /** The record as the codec hands it over after a decode. */
    constructor (rid: int, pos: int, qual: real, alleles: seq<string>,
                 info: map<string, Values>, format: map<string, Values>)
      ensures Valid() && fresh(this.alleles)
      ensures this.rid == rid && this.pos == pos && this.qual == qual
      ensures this.info == info && this.format == format
      ensures Alleles() == seq(|alleles|, i requires 0 <= i < |alleles| => Some(alleles[i]))
    {
      this.rid, this.pos, this.qual := rid, pos, qual;
      this.alleles := new Option<string>[|alleles|](i requires 0 <= i < |alleles| => Some(alleles[i]));
      this.nAllele := |alleles|;
      this.info, this.format := info, format;
    }
  }

  // BCF2 genotype encoding (section 6.3 of the VCF v4.3 specification): a raw
  // GT entry holds (allele + 1) << 1, with the phase flag in the low bit, and
  // raw 0 means "missing". Dafny's `/` and `%` by 2 are floor division and the
  // non-negative remainder, which is what `>> 1` and `& 1` compute on a
  // two's-complement int32, so the functions below hold for every raw value.

  /** Raw entry 0: the missing allele, unphased. */
  const GT_MISSING: int := 0

  /** bcf_gt_allele: the allele index a raw entry stands for (-1 = missing). */
  function GtAllele(raw: int): (allele: int)
    ensures raw >= 0 ==> allele >= -1
    ensures 2 * (allele + 1) <= raw <= 2 * (allele + 1) + 1
  {
    raw / 2 - 1
  }

  /** bcf_gt_unphased: the raw entry for an allele index without the phase flag. */
  function GtUnphased(allele: int): (raw: int)
    ensures GtAllele(raw) == allele && !GtIsPhased(raw)
  {
    (allele + 1) * 2
  }

  /** bcf_gt_is_phased: the low bit of a raw entry. */
  predicate GtIsPhased(raw: int)
  {
    raw % 2 == 1
  }

  /** A raw entry is determined by its allele and its phase flag. */
  lemma GtEncodingInjective(a: int, b: int)
    requires GtAllele(a) == GtAllele(b) && (GtIsPhased(a) <==> GtIsPhased(b))
    ensures a == b
  {
  }

  lemma MissingIsMinusOne()
    ensures GtAllele(GT_MISSING) == -1 && !GtIsPhased(GT_MISSING)
  {
  }
}
