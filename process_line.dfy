/**
 * handleRecord (src/processLine.cpp): decide whether a record is kept, and on
 * keep strip its INFO and FORMAT fields in place and append it to the queue
 * the writer thread drains.
 */
module ProcessLine {
  import opened Wrappers
  import opened Vcf
  import opened Parameters

  // The thresholds of src/processLine.cpp:14-62.
  const MIN_QUAL: real := 30.0
  const MIN_QD: real := 2.0
  const SNP_MAX_FS: real := 60.0
  const SNP_MIN_READ_POS_RANK_SUM: real := -8.0
  const SNP_MIN_MQ: real := 40.0
  const SNP_MIN_MQ_RANK_SUM: real := -12.5
  const OTHER_MAX_FS: real := 200.0
  const OTHER_MIN_READ_POS_RANK_SUM: real := -20.0
  const MIN_AF: real := 0.01
  const MAX_MISSING_RATE: real := 0.01

  /** The FORMAT keys cleared from every kept record. */
  const STRIPPED_FORMAT_KEYS: set<string> := {"GQ", "PGT", "PID", "PL", "MIN_DP", "RGQ", "SB", "PS"}

  /** The rules that drop a record, in the order they are checked. */
  datatype Rule =
    | LowQual | LowQD | HighFS | LowReadPosRankSum | LowMQ | LowMQRankSum
    | NoAF | LowAF | HighMissingRate

  /**
   * The decision. AnUnreadable is the case where every other rule passes and
   * AN has no value: the source then reads `an_value[0]` through a null
   * pointer, so no outcome is defined.
   */
  datatype Verdict = Keep | Drop(rule: Rule) | AnUnreadable

  /** The first value of an INFO field; None when the field is absent or has no values. */
  function FirstValue(info: map<string, Values>, key: string): Option<real>
  {
    if key in info && |info[key]| > 0 then Some(info[key][0]) else None
  }

  predicate FirstBelow(info: map<string, Values>, key: string, bound: real)
  {
    FirstValue(info, key).Some? && FirstValue(info, key).value < bound
  }

  predicate FirstAbove(info: map<string, Values>, key: string, bound: real)
  {
    FirstValue(info, key).Some? && FirstValue(info, key).value > bound
  }

  /**
   * The missing rate as src/processLine.cpp:62 computes it: `1 - AN / n * 2`,
   * which groups as 1 - (AN / n) * 2.
   */
  function MissingRate(an: real, nSamples: int): real
    requires nSamples > 0
  {
    1.0 - an / (nSamples as real) * 2.0
  }

  /** The fraction of uncalled alleles of a diploid site, 1 - AN / (2 n), for comparison. */
  function UncalledFraction(an: real, nSamples: int): real
    requires nSamples > 0
  {
    1.0 - an / (2.0 * (nSamples as real))
  }

  /** Each drop rule judged on its own, as an independent predicate. */
  predicate Fires(rule: Rule, qual: real, info: map<string, Values>, filetype: string, nSamples: int)
    requires nSamples > 0
  {
    var snp := filetype == "SNP";
    match rule
    case LowQual => qual < MIN_QUAL
    case LowQD => FirstBelow(info, "QD", MIN_QD)
    case HighFS => FirstAbove(info, "FS", if snp then SNP_MAX_FS else OTHER_MAX_FS)
    case LowReadPosRankSum =>
      FirstBelow(info, "ReadPosRankSum",
                 if snp then SNP_MIN_READ_POS_RANK_SUM else OTHER_MIN_READ_POS_RANK_SUM)
    case LowMQ => snp && FirstBelow(info, "MQ", SNP_MIN_MQ)
    case LowMQRankSum => snp && FirstBelow(info, "MQRankSum", SNP_MIN_MQ_RANK_SUM)
    case NoAF => FirstValue(info, "AF").None?
    case LowAF =>
      "AF" in info && |info["AF"]| > 0 && forall k :: 0 <= k < |info["AF"]| ==> info["AF"][k] <= MIN_AF
    case HighMissingRate =>
      FirstValue(info, "AN").Some? && MissingRate(FirstValue(info, "AN").value, nSamples) > MAX_MISSING_RATE
  }

  /** Whether any rule other than the missing-rate rule fires. */
  predicate EarlyRuleFires(qual: real, info: map<string, Values>, filetype: string, nSamples: int)
    requires nSamples > 0
  {
    exists rule :: rule != HighMissingRate && Fires(rule, qual, info, filetype, nSamples)
  }

  /** std::all_of(af, af + naf, af <= 0.01). */
  predicate AllAtMost(values: Values, bound: real)
  {
    forall k :: 0 <= k < |values| ==> values[k] <= bound
  }

  /**
   * The decision of src/processLine.cpp:14-66, checked in the order the source checks them.
   * A drop names a rule that fires.
   */
  function Evaluate(qual: real, info: map<string, Values>, filetype: string, nSamples: int): (v: Verdict)
    requires nSamples > 0
    ensures v.Drop? ==> Fires(v.rule, qual, info, filetype, nSamples)
  {
    if qual < MIN_QUAL then Drop(LowQual)
    else if FirstBelow(info, "QD", MIN_QD) then Drop(LowQD)
    else if filetype == "SNP" && FirstAbove(info, "FS", SNP_MAX_FS) then Drop(HighFS)
    else if filetype == "SNP" && FirstBelow(info, "ReadPosRankSum", SNP_MIN_READ_POS_RANK_SUM) then Drop(LowReadPosRankSum)
    else if filetype == "SNP" && FirstBelow(info, "MQ", SNP_MIN_MQ) then Drop(LowMQ)
    else if filetype == "SNP" && FirstBelow(info, "MQRankSum", SNP_MIN_MQ_RANK_SUM) then Drop(LowMQRankSum)
    else if filetype != "SNP" && FirstAbove(info, "FS", OTHER_MAX_FS) then Drop(HighFS)
    else if filetype != "SNP" && FirstBelow(info, "ReadPosRankSum", OTHER_MIN_READ_POS_RANK_SUM) then Drop(LowReadPosRankSum)
    else if !("AF" in info && |info["AF"]| > 0) then Drop(NoAF)
    else if AllAtMost(info["AF"], MIN_AF) then Drop(LowAF)
    else if !("AN" in info && |info["AN"]| > 0) then AnUnreadable
    else if MissingRate(info["AN"][0], nSamples) > MAX_MISSING_RATE then Drop(HighMissingRate)
    else Keep
  }

  /** INFO after the loop at src/processLine.cpp:72-82: header INFO keys outside keepFields removed. */
  function StripInfo(info: map<string, Values>, header: Header, keepFields: set<string>): (r: map<string, Values>)
    ensures forall k :: k in r <==> k in info && (k in keepFields || k !in HeaderInfoKeys(header))
    ensures forall k :: k in r ==> r[k] == info[k]
  {
    info - (HeaderInfoKeys(header) - keepFields)
  }

  /** The queue of records handed to the writer thread (main.cpp:15). */
  class WriteQueue {
    var items: seq<Record>

    constructor ()
      ensures items == []
    {
      items := [];
    }

    /** writeQueue.push under the queue mutex. */
    method Push(rec: Record)
      modifies this`items
      ensures items == old(items) + [rec]
    {
      items := items + [rec];
    }
  }

  /** bcf_update_info(header, record, key, NULL, 0, 0): remove the key, if present. */
  method RemoveInfo(rec: Record, key: string)
    modifies rec`info
    ensures rec.info == old(rec.info) - {key}
  {
    rec.info := rec.info - {key};
  }

  /**
   * bcf_update_format_float(header, record, key, NULL, 0): remove the key, if
   * present. Its return status only decides whether an error is logged.
   */
  method ClearFormat(rec: Record, key: string)
    modifies rec`format
    ensures rec.format == old(rec.format) - {key}
  {
    rec.format := rec.format - {key};
  }

  /** The INFO stripping loop over the header's ID dictionary. */
  method StripInfoFields(header: Header, rec: Record, keepFields: set<string>)
    modifies rec`info
    ensures rec.info == StripInfo(old(rec.info), header, keepFields)
  {
    var i := 0;
    while i < |header|
      invariant 0 <= i <= |header|
      invariant rec.info == StripInfo(old(rec.info), header[..i], keepFields)
    {
      var key := header[i].key;
      if header[i].isInfo {
        if key !in keepFields {
          RemoveInfo(rec, key);
        }
      }
      assert header[..i + 1] == header[..i] + [header[i]];
      HeaderInfoKeysAppend(header[..i], header[i]);
      i := i + 1;
    }
    assert header[..i] == header;
  }

  /**
   * handleRecord. The decision reads INFO through the header, so it sees only
   * the entries the header declares as INFO. A dropped record leaves the
   * record and the queue as they were; a kept record loses the INFO keys
   * outside keepFields and the eight FORMAT keys, and is appended to the
   * queue. Position, QUAL and alleles are never touched.
   */
  method HandleRecord(header: Header, rec: Record, params: Params, controller: Controller, queue: WriteQueue)
    requires controller.nSamples > 0
    requires Evaluate(rec.qual, Readable(rec.info, header), params.filetype, controller.nSamples) != AnUnreadable
    modifies rec`info, rec`format, queue`items
    ensures rec.qual == old(rec.qual) && rec.pos == old(rec.pos) && rec.rid == old(rec.rid)
    ensures rec.alleles == old(rec.alleles) && rec.nAllele == old(rec.nAllele)
    ensures Evaluate(old(rec.qual), Readable(old(rec.info), header), params.filetype, controller.nSamples) == Keep ==>
      && rec.info == StripInfo(old(rec.info), header, params.keepFields)
      && rec.format == old(rec.format) - STRIPPED_FORMAT_KEYS
      && queue.items == old(queue.items) + [rec]
    ensures Evaluate(old(rec.qual), Readable(old(rec.info), header), params.filetype, controller.nSamples) != Keep ==>
      rec.info == old(rec.info) && rec.format == old(rec.format) && queue.items == old(queue.items)
  {
    var verdict := Evaluate(rec.qual, Readable(rec.info, header), params.filetype, controller.nSamples);
    if verdict != Keep {
      return;
    }
    StripInfoFields(header, rec, params.keepFields);
    ClearFormatFields(rec);
    queue.Push(rec);
  }

  /** The eight FORMAT clears of src/processLine.cpp:85-108; a failed clear is only logged. */
  method ClearFormatFields(rec: Record)
    modifies rec`format
    ensures forall k :: k in rec.format <==> k in old(rec.format) && k !in STRIPPED_FORMAT_KEYS
    ensures forall k :: k in rec.format ==> rec.format[k] == old(rec.format)[k]
  {
    ClearFormat(rec, "GQ");
    ClearFormat(rec, "PGT");
    ClearFormat(rec, "PID");
    ClearFormat(rec, "PL");
    ClearFormat(rec, "MIN_DP");
    ClearFormat(rec, "RGQ");
    ClearFormat(rec, "SB");
    ClearFormat(rec, "PS");
  }

  // ---------------------------------------------------------------------------
  // Properties of the decision

  /**
   * The rules are independent: a record is kept exactly when AN has a value
   * and no rule fires, and the AN read is undefined exactly when AN has no
   * value and no other rule fires.
   */
  lemma KeepIffNoRuleFires(qual: real, info: map<string, Values>, filetype: string, nSamples: int)
    requires nSamples > 0
    ensures Evaluate(qual, info, filetype, nSamples) == Keep <==>
      FirstValue(info, "AN").Some? && forall rule :: !Fires(rule, qual, info, filetype, nSamples)
    ensures Evaluate(qual, info, filetype, nSamples) == AnUnreadable <==>
      FirstValue(info, "AN").None? && !EarlyRuleFires(qual, info, filetype, nSamples)
  {
    var v := Evaluate(qual, info, filetype, nSamples);
    if v.Drop? {
      assert Fires(v.rule, qual, info, filetype, nSamples);
      if v.rule != HighMissingRate {
        assert EarlyRuleFires(qual, info, filetype, nSamples);
      }
    } else {
      forall rule | rule != HighMissingRate
        ensures !Fires(rule, qual, info, filetype, nSamples)
      {
      }
    }
  }

  /** QUAL strictly below 30 drops the record; QUAL of exactly 30 passes that rule. */
  lemma QualBoundary(qual: real, info: map<string, Values>, filetype: string, nSamples: int)
    requires nSamples > 0
    ensures qual < 30.0 ==> Evaluate(qual, info, filetype, nSamples) == Drop(LowQual)
    ensures qual == 30.0 ==> Evaluate(qual, info, filetype, nSamples) != Drop(LowQual)
  {
  }

  /** The optional fields: an absent one never causes a drop. */
  predicate IsOptionalField(key: string)
  {
    key in {"QD", "FS", "ReadPosRankSum", "MQ", "MQRankSum"}
  }

  /** Removing an optional field from a kept record keeps it kept. */
  lemma AbsentOptionalFieldNeverDrops(qual: real, info: map<string, Values>, filetype: string, nSamples: int, key: string)
    requires nSamples > 0 && IsOptionalField(key)
    requires Evaluate(qual, info, filetype, nSamples) == Keep
    ensures Evaluate(qual, info - {key}, filetype, nSamples) == Keep
  {
    var fewer := info - {key};
    assert "AF" in fewer && fewer["AF"] == info["AF"];
    assert "AN" in fewer && fewer["AN"] == info["AN"];
    KeepIffNoRuleFires(qual, info, filetype, nSamples);
    forall rule ensures !Fires(rule, qual, fewer, filetype, nSamples) {
      assert !Fires(rule, qual, info, filetype, nSamples);
    }
    KeepIffNoRuleFires(qual, fewer, filetype, nSamples);
  }

  /**
   * A record with none of the optional fields, QUAL at least 30, an AF value
   * above 0.01 and a coded missing rate at most 0.01 is kept.
   */
  lemma WithoutOptionalFieldsKept(qual: real, info: map<string, Values>, filetype: string, nSamples: int)
    requires nSamples > 0
    requires forall key :: IsOptionalField(key) ==> key !in info
    requires qual >= MIN_QUAL
    requires "AF" in info && exists k :: 0 <= k < |info["AF"]| && info["AF"][k] > MIN_AF
    requires FirstValue(info, "AN").Some? && MissingRate(FirstValue(info, "AN").value, nSamples) <= MAX_MISSING_RATE
    ensures Evaluate(qual, info, filetype, nSamples) == Keep
  {
    assert IsOptionalField("QD") && IsOptionalField("FS") && IsOptionalField("ReadPosRankSum");
    assert IsOptionalField("MQ") && IsOptionalField("MQRankSum");
  }

  /** Only the first value of a thresholded field is read: the others never change the decision. */
  lemma OnlyFirstValueRead(qual: real, info: map<string, Values>, filetype: string, nSamples: int,
                             key: string, rest: Values)
    requires nSamples > 0
    requires IsOptionalField(key) || key == "AN"
    requires key in info && |info[key]| > 0
    ensures Evaluate(qual, info[key := [info[key][0]] + rest], filetype, nSamples)
         == Evaluate(qual, info, filetype, nSamples)
  {
    var other := info[key := [info[key][0]] + rest];
    assert "AF" in other <==> "AF" in info;
    assert "AF" in info ==> other["AF"] == info["AF"];
  }

  /** Outside the SNP branch MQ and MQRankSum are never read. */
  lemma NonSnpIgnoresMq(qual: real, info: map<string, Values>, filetype: string, nSamples: int)
    requires nSamples > 0 && filetype != "SNP"
    ensures Evaluate(qual, info - {"MQ", "MQRankSum"}, filetype, nSamples)
         == Evaluate(qual, info, filetype, nSamples)
  {
    var fewer := info - {"MQ", "MQRankSum"};
    assert "QD" in fewer <==> "QD" in info;
    assert "QD" in fewer ==> fewer["QD"] == info["QD"];
    assert "FS" in fewer <==> "FS" in info;
    assert "FS" in fewer ==> fewer["FS"] == info["FS"];
    assert "ReadPosRankSum" in fewer <==> "ReadPosRankSum" in info;
    assert "ReadPosRankSum" in fewer ==> fewer["ReadPosRankSum"] == info["ReadPosRankSum"];
    assert "AF" in fewer <==> "AF" in info;
    assert "AF" in fewer ==> fewer["AF"] == info["AF"];
    assert "AN" in fewer <==> "AN" in info;
    assert "AN" in fewer ==> fewer["AN"] == info["AN"];
  }

  /**
   * The SNP branch drops on FS > 60, ReadPosRankSum < -8, MQ < 40 and
   * MQRankSum < -12.5; every other filetype drops only on FS > 200 and
   * ReadPosRankSum < -20.
   */
  lemma BranchThresholds(info: map<string, Values>, filetype: string, nSamples: int, v: real)
    requires nSamples > 0
    ensures filetype == "SNP" ==>
      && (FirstValue(info, "FS") == Some(v) ==> (Fires(HighFS, MIN_QUAL, info, filetype, nSamples) <==> v > 60.0))
      && (FirstValue(info, "ReadPosRankSum") == Some(v) ==>
            (Fires(LowReadPosRankSum, MIN_QUAL, info, filetype, nSamples) <==> v < -8.0))
      && (FirstValue(info, "MQ") == Some(v) ==> (Fires(LowMQ, MIN_QUAL, info, filetype, nSamples) <==> v < 40.0))
      && (FirstValue(info, "MQRankSum") == Some(v) ==>
            (Fires(LowMQRankSum, MIN_QUAL, info, filetype, nSamples) <==> v < -12.5))
    ensures filetype != "SNP" ==>
      && (FirstValue(info, "FS") == Some(v) ==> (Fires(HighFS, MIN_QUAL, info, filetype, nSamples) <==> v > 200.0))
      && (FirstValue(info, "ReadPosRankSum") == Some(v) ==>
            (Fires(LowReadPosRankSum, MIN_QUAL, info, filetype, nSamples) <==> v < -20.0))
      && !Fires(LowMQ, MIN_QUAL, info, filetype, nSamples)
      && !Fires(LowMQRankSum, MIN_QUAL, info, filetype, nSamples)
  {
  }

  /** AF: missing or empty drops; every value at most 0.01 drops; one value above 0.01 passes. */
  lemma AfRule(qual: real, info: map<string, Values>, filetype: string, nSamples: int)
    requires nSamples > 0
    ensures !("AF" in info && |info["AF"]| > 0) ==> Evaluate(qual, info, filetype, nSamples).Drop?
    ensures "AF" in info && |info["AF"]| > 0 && AllAtMost(info["AF"], MIN_AF) ==>
      Evaluate(qual, info, filetype, nSamples).Drop?
    ensures "AF" in info && (exists k :: 0 <= k < |info["AF"]| && info["AF"][k] > MIN_AF) ==>
      !Fires(NoAF, qual, info, filetype, nSamples) && !Fires(LowAF, qual, info, filetype, nSamples)
  {
  }

  /** The coded missing rate exceeds 0.01 exactly when AN < 0.495 * n. */
  lemma MissingRateThreshold(an: real, nSamples: int)
    requires nSamples > 0
    ensures MissingRate(an, nSamples) > MAX_MISSING_RATE <==> an < 0.495 * (nSamples as real)
  {
    var n := nSamples as real;
    var q := an / n;
    assert an == q * n;
    assert MissingRate(an, nSamples) == 1.0 - q * 2.0;
    if q < 0.495 {
      assert q * n < 0.495 * n;
    } else {
      assert q * n >= 0.495 * n;
    }
  }

  /**
   * The coded rate agrees with the uncalled-allele fraction 1 - AN / (2 n)
   * only when AN is 0.
   */
  lemma MissingRateDiffersFromUncalledFraction(an: real, nSamples: int)
    requires nSamples > 0
    ensures MissingRate(an, nSamples) == UncalledFraction(an, nSamples) <==> an == 0.0
  {
    var n := nSamples as real;
    var q := an / n;
    assert an / (2.0 * n) == q / 2.0;
  }

  /** With ten samples: AN = 0 drops on the missing rate; AN = 10 and AN = 20 pass it. */
  lemma MissingRateExamples()
    ensures MissingRate(0.0, 10) == 1.0 && MissingRate(0.0, 10) > MAX_MISSING_RATE
    ensures MissingRate(10.0, 10) == -1.0 && MissingRate(10.0, 10) <= MAX_MISSING_RATE
    ensures MissingRate(20.0, 10) == -3.0 && MissingRate(20.0, 10) <= MAX_MISSING_RATE
    ensures UncalledFraction(10.0, 10) == 0.5
  {
  }

  /**
   * A kept record's INFO keys are its original keys that keepFields names, each
   * with its original values, when every INFO key of the record is declared in
   * the header; an undeclared key is never removed.
   */
  lemma StripInfoKeepsOnlyKeepFields(info: map<string, Values>, header: Header, keepFields: set<string>)
    requires info.Keys <= HeaderInfoKeys(header)
    ensures StripInfo(info, header, keepFields).Keys == info.Keys * keepFields
    ensures forall k :: k in info.Keys * keepFields ==> StripInfo(info, header, keepFields)[k] == info[k]
  {
  }

  /** Stripping twice strips nothing more. */
  lemma StripInfoIdempotent(info: map<string, Values>, header: Header, keepFields: set<string>)
    ensures StripInfo(StripInfo(info, header, keepFields), header, keepFields) == StripInfo(info, header, keepFields)
  {
  }

  /** With the default keep set, a kept record holds at most AC, AF, AN and DP. */
  lemma DefaultKeepFields(info: map<string, Values>, header: Header)
    requires info.Keys <= HeaderInfoKeys(header)
    ensures StripInfo(info, header, DEFAULT_KEEP_FIELDS).Keys <= {"AC", "AF", "AN", "DP"}
  {
    StripInfoKeepsOnlyKeepFields(info, header, DEFAULT_KEEP_FIELDS);
  }

  // ---------------------------------------------------------------------------
  // INFO read through the header

  /** When the header declares every INFO key of the record, the reads see all of INFO. */
  lemma ReadableWhenDeclared(info: map<string, Values>, header: Header)
    requires info.Keys <= HeaderInfoKeys(header)
    ensures Readable(info, header) == info
  {
  }

  /** An INFO entry whose key the header does not declare never affects the decision. */
  lemma UndeclaredFieldUnread(qual: real, info: map<string, Values>, header: Header, filetype: string,
                              nSamples: int, key: string)
    requires nSamples > 0 && key !in HeaderInfoKeys(header)
    ensures key !in Readable(info, header)
    ensures Evaluate(qual, Readable(info - {key}, header), filetype, nSamples)
         == Evaluate(qual, Readable(info, header), filetype, nSamples)
  {
    assert Readable(info - {key}, header) == Readable(info, header);
  }

  /** A header without QD, FS, ReadPosRankSum, MQ and MQRankSum switches their rules off. */
  lemma UndeclaredOptionalFieldsDisableRules(qual: real, info: map<string, Values>, header: Header,
                                             filetype: string, nSamples: int)
    requires nSamples > 0
    requires forall key :: IsOptionalField(key) ==> key !in HeaderInfoKeys(header)
    ensures !Fires(LowQD, qual, Readable(info, header), filetype, nSamples)
    ensures !Fires(HighFS, qual, Readable(info, header), filetype, nSamples)
    ensures !Fires(LowReadPosRankSum, qual, Readable(info, header), filetype, nSamples)
    ensures !Fires(LowMQ, qual, Readable(info, header), filetype, nSamples)
    ensures !Fires(LowMQRankSum, qual, Readable(info, header), filetype, nSamples)
  {
    assert IsOptionalField("QD") && IsOptionalField("FS") && IsOptionalField("ReadPosRankSum");
    assert IsOptionalField("MQ") && IsOptionalField("MQRankSum");
  }

  /** A header without an AF definition drops every record. */
  lemma UndeclaredAfDrops(qual: real, info: map<string, Values>, header: Header, filetype: string, nSamples: int)
    requires nSamples > 0 && "AF" !in HeaderInfoKeys(header)
    ensures Evaluate(qual, Readable(info, header), filetype, nSamples).Drop?
  {
    assert "AF" !in Readable(info, header);
  }

  /**
   * A header whose INFO ids all lie in keepFields (as the header-removal loop
   * at main.cpp:81-89 leaves it, if a removed definition no longer counts as
   * an INFO id) makes the INFO stripping loop remove nothing.
   */
  lemma StrippedHeaderStripsNothing(info: map<string, Values>, header: Header, keepFields: set<string>)
    requires HeaderInfoKeys(header) <= keepFields
    ensures StripInfo(info, header, keepFields) == info
  {
  }
}
