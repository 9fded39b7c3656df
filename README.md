# filtersnp core, modelled in Dafny

filtersnp reads a VCF/BCF file record by record, drops records that fail a
fixed set of quality thresholds, strips the annotation fields it does not
need from the records it keeps, and hands the kept records to a writer
thread. It also carries a transform that removes one allele from a record
and remaps every sample's genotype call, and a hand-written command-line
scanner.

This project models those three sequential parts:

- `ProcessLine` (`process_line.dfy`), after `handleRecord`: the keep/drop
  decision `Evaluate` as a pure function of QUAL, the INFO values the header
  lets the reads see (`Vcf.Readable`), the filetype and the sample count; each drop rule again as an independent
  predicate `Fires`; and the imperative `HandleRecord`, which strips INFO
  keys outside `keep_fields` with a loop over the header's ID dictionary,
  clears eight FORMAT keys and appends the record to a `WriteQueue`.
- `Rewrite` (`rewrite_record.dfy`), after `RewriteRecord`: the index check,
  the in-place left shift of the allele array, the decrement of `n_allele`,
  and the in-place remap of the diploid GT array, proved against the
  functions `RemoveAt` and `Remapped`.
- `ParamsControl` (`params_control.dfy`), after `checkParameters`: the argv
  loop as a method proved equal to `Parse`, a fold of the single-step
  function `ScanStep`. Every `std::exit(1)` becomes a `Failure` that carries
  the exit status and the reason.

Shared modules: `Vcf` (`vcf.dfy`) holds the record class (htslib's
`bcf1_t`), the header's ID dictionary, the `Controller` counts and the BCF2
genotype encoding from section 6.3 of the VCF v4.3 specification.
`Parameters` (`parameters.dfy`) holds `Params` with its default keep set
{AC, AF, AN, DP}. `Wrappers` (`wrappers.dfy`) holds Option, Result and
Outcome.

QUAL and the INFO values are `real`. INFO is a `map<string, seq<real>>`. The
write queue is a `seq` of records that `Push` appends to. GT entries are
unbounded integers. `GtAllele(raw) = raw / 2 - 1`, `GtUnphased(k) = (k + 1) * 2`,
and the phase bit is `raw % 2`. Dafny's floor division and non-negative
remainder by 2 are exactly `>> 1` and `& 1` on a two's-complement int32, so the
encoding holds for negative raw values too.

## Where the code departs from what it computes

The model follows the code in each case below, and a lemma shows the difference.

- Missing rate. The variable `missing_rate` would be the uncalled-allele
  fraction `1 - AN / (2 n)`, but src/processLine.cpp:62 writes
  `1 - AN / n * 2`, which groups as `1 - (AN / n) * 2`. `MissingRate` models
  the code. `MissingRateDiffersFromUncalledFraction` proves the two agree only
  when AN = 0. `MissingRateThreshold` proves that the coded rule drops exactly
  when AN < 0.495 n. With n = 10 and AN = 10, the coded rate is -1 and the
  record is kept, while the uncalled-allele fraction is 0.5
  (`MissingRateExamples`).
- Genotype of a sample carrying the dropped allele. src/RewriteRecord.cpp:34-35
  writes raw 0 to both entries, and raw 0 decodes to allele -1, which is
  missing. Homozygous reference would be raw 2, which is `bcf_gt_unphased(0)`
  (`RemapHitSample`, `Vcf.MissingIsMinusOne`, `DropExample`).

## Model

| member | source | states |
|---|---|---|
| `Vcf.HeaderInfoKeys` | src/processLine.cpp:72-76 | definition: the set of header ids that have an INFO definition |
| `Vcf.HeaderInfoKeysAppend` | src/processLine.cpp:72-76 | walking one more header entry adds its key to the INFO ids exactly when that entry has an INFO definition |
| `Vcf.Readable` | src/processLine.cpp:19-61 | definition: the INFO entries a header-taking `bcf_get_info_*` read can find, those whose key the header declares as INFO |
| `Vcf.GtAllele` | src/RewriteRecord.cpp:31 | a raw entry lies between twice (allele + 1) and that plus the phase bit; a non-negative raw decodes to an allele of at least -1 |
| `Vcf.GtIsPhased` | src/RewriteRecord.cpp:38-41 | definition: the phase flag is the low bit of a raw entry |
| `Vcf.GtUnphased` | src/RewriteRecord.cpp:38 | the unphased encoding of an allele decodes back to that allele and carries no phase bit |
| `Vcf.GtEncodingInjective` | src/RewriteRecord.cpp:31-42 | a raw entry is determined by its allele and its phase bit |
| `Vcf.MissingIsMinusOne` | src/RewriteRecord.cpp:34-35 | raw 0 decodes to allele -1 (missing), unphased |
| `ProcessLine.FirstValue` | src/processLine.cpp:17-21 | definition: element 0 of a field when the read returns a positive count, otherwise nothing |
| `ProcessLine.MissingRate` | src/processLine.cpp:62 | definition: the coded rate `1 - (AN / n) * 2` |
| `ProcessLine.AllAtMost` | src/processLine.cpp:54 | definition: the `std::all_of` test that every value is at most the bound |
| `ProcessLine.Fires` | src/processLine.cpp:14-66 | definition: each drop rule with its threshold and branch, judged independently of the others |
| `ProcessLine.Evaluate` | src/processLine.cpp:14-66 | a drop always names a rule that fires on the record |
| `ProcessLine.KeepIffNoRuleFires` | src/processLine.cpp:14-66 | a record is kept if and only if AN has a value and no rule fires; the AN read is undefined if and only if AN has no value and no other rule fires |
| `ProcessLine.QualBoundary` | src/processLine.cpp:14 | QUAL below 30 drops on the QUAL rule; QUAL exactly 30 is not dropped by it |
| `ProcessLine.AbsentOptionalFieldNeverDrops` | src/processLine.cpp:17-46 | removing QD, FS, ReadPosRankSum, MQ or MQRankSum from a kept record leaves it kept |
| `ProcessLine.WithoutOptionalFieldsKept` | src/processLine.cpp:14-66 | with no optional fields, QUAL at least 30, some AF above 0.01 and a coded missing rate at most 0.01, the record is kept |
| `ProcessLine.OnlyFirstValueRead` | src/processLine.cpp:17-62 | changing any value after the first of QD, FS, ReadPosRankSum, MQ, MQRankSum or AN never changes the decision |
| `ProcessLine.NonSnpIgnoresMq` | src/processLine.cpp:30-46 | for a filetype other than SNP, removing MQ and MQRankSum never changes the decision |
| `ProcessLine.BranchThresholds` | src/processLine.cpp:30-46 | SNP drops on FS > 60, ReadPosRankSum < -8, MQ < 40 and MQRankSum < -12.5; any other filetype drops only on FS > 200 and ReadPosRankSum < -20 |
| `ProcessLine.AfRule` | src/processLine.cpp:48-66 | a missing or empty AF drops; an AF whose values are all at most 0.01 drops; one value above 0.01 passes both AF rules |
| `ProcessLine.MissingRateThreshold` | src/processLine.cpp:62 | the coded missing-rate rule fires exactly when AN < 0.495 n |
| `ProcessLine.MissingRateDiffersFromUncalledFraction` | src/processLine.cpp:62 | the coded rate equals 1 - AN/(2n) only when AN is 0 |
| `ProcessLine.MissingRateExamples` | src/processLine.cpp:62 | n = 10: AN = 0 gives 1 and drops; AN = 10 gives -1 and AN = 20 gives -3, both pass |
| `ProcessLine.StripInfo` | src/processLine.cpp:72-82 | a key survives exactly when it was present and is in keep_fields or has no INFO definition in the header; survivors keep their values |
| `ProcessLine.StripInfoKeepsOnlyKeepFields` | src/processLine.cpp:72-82 | for a record whose INFO keys are all declared in the header, the keys left are the original keys that keep_fields names, with their values |
| `ProcessLine.StripInfoIdempotent` | src/processLine.cpp:72-82 | stripping a stripped record changes nothing |
| `ProcessLine.DefaultKeepFields` | include/Params.hpp:15 | for a record whose INFO keys the header all declares, the default keep set leaves no INFO keys other than AC, AF, AN and DP |
| `ProcessLine.RemoveInfo` | src/processLine.cpp:79 | the INFO key is gone; everything else in INFO is as before |
| `ProcessLine.StripInfoFields` | src/processLine.cpp:72-82 | the loop over the header leaves INFO equal to `StripInfo` of the old INFO |
| `ProcessLine.ClearFormat` | src/processLine.cpp:85-87 | the FORMAT key is gone; everything else in FORMAT is as before |
| `ProcessLine.ClearFormatFields` | src/processLine.cpp:85-108 | GQ, PGT, PID, PL, MIN_DP, RGQ, SB and PS are removed from FORMAT, nothing else |
| `ProcessLine.WriteQueue.Push` | src/processLine.cpp:109-114 | the queue gains the record at its back and nothing else |
| `ProcessLine.HandleRecord` | src/processLine.cpp:10-115 | the decision sees only the INFO entries the header declares; a dropped record and the queue are left as they were; a kept record has INFO stripped and the eight FORMAT keys cleared, and is appended once at the back of the queue; position, QUAL and alleles never change |
| `ProcessLine.ReadableWhenDeclared` | src/processLine.cpp:19-61 | when the header declares every INFO key of the record, the reads see all of INFO |
| `ProcessLine.UndeclaredFieldUnread` | src/processLine.cpp:19-61 | an INFO entry whose key the header does not declare is never read and never changes the decision |
| `ProcessLine.UndeclaredOptionalFieldsDisableRules` | src/processLine.cpp:19-46 | a header without QD, FS, ReadPosRankSum, MQ and MQRankSum definitions switches off the QD, FS, ReadPosRankSum, MQ and MQRankSum rules |
| `ProcessLine.UndeclaredAfDrops` | src/processLine.cpp:51-66 | a header without an AF definition drops every record |
| `ProcessLine.StrippedHeaderStripsNothing` | main.cpp:81-89 | once every INFO id of the header is in keep_fields, the INFO stripping loop removes nothing |
| `Rewrite.RemapEntry` | src/RewriteRecord.cpp:37-42 | definition: an entry above the dropped allele becomes the unphased encoding of its allele minus one; any other entry is kept |
| `Rewrite.Hit` | src/RewriteRecord.cpp:31 | definition: either entry of the sample's pair carries the dropped allele |
| `Rewrite.RemapPairAt` | src/RewriteRecord.cpp:31-42 | definition: a hit sample's entry becomes raw 0, any other goes through `RemapEntry` |
| `Rewrite.Remapped` | src/RewriteRecord.cpp:30-44 | definition: gt with each of the first 2 n_samples entries replaced by `RemapPairAt` of its sample's old pair, the rest untouched |
| `Rewrite.RemoveAt` | src/RewriteRecord.cpp:17-26 | one element shorter; elements before the index are kept; every later element moves one slot left |
| `Rewrite.RewriteRecord` | src/RewriteRecord.cpp:8-45 | an out-of-range index fails before anything changes; otherwise n_allele drops by one, the live alleles are `RemoveAt` of the old ones, the freed slot is released, and gt is `Remapped` |
| `Rewrite.DropAllele` | src/RewriteRecord.cpp:17-26 | the live alleles become `RemoveAt` of the old ones, the last old slot is released, n_allele drops by one, later slots are untouched |
| `Rewrite.RemapGenotypes` | src/RewriteRecord.cpp:29-44 | gt becomes `Remapped` of the old gt |
| `Rewrite.RemapSample` | src/RewriteRecord.cpp:31-43 | the sample's two entries are set from its old pair; no other entry changes |
| `Rewrite.RemappedAtSample` | src/RewriteRecord.cpp:31-43 | each sample's two new entries are computed from that sample's old pair |
| `Rewrite.RemapHitSample` | src/RewriteRecord.cpp:31-35 | a sample with either allele equal to the dropped one gets raw 0 on both entries, which is missing |
| `Rewrite.RemapOtherSample` | src/RewriteRecord.cpp:36-43 | otherwise an entry above the dropped allele becomes the unphased code of the allele below it; an entry below it, missing included, keeps its raw value and phase |
| `Rewrite.RemapLeavesTail` | src/RewriteRecord.cpp:30-44 | entries from 2·n_samples on are never written |
| `Rewrite.RemapSamplesIndependent` | src/RewriteRecord.cpp:30-44 | a sample's new pair depends only on its own old pair |
| `Rewrite.RemapKeepsCallsInRange` | src/RewriteRecord.cpp:18-44 | if every non-missing allele was in [0, n) before, every one is in [0, n-1) after |
| `Rewrite.DropExample` | src/RewriteRecord.cpp:17-44 | [A, T, G] without T is [A, G]; sample 1/2 becomes raw 0/0, sample 0/2 becomes 0/1 |
| `ParamsControl.HasValue` | src/paramsControl.cpp:36 | definition: a next argument exists and is empty or does not start with '-' |
| `ParamsControl.ScanFrom` | src/paramsControl.cpp:34-67 | definition: `ScanStep` repeated from index i until a stop or the end of argv |
| `ParamsControl.RequireFields` | src/paramsControl.cpp:70-84 | definition: the missing -i, -o and -type checks in that order |
| `ParamsControl.Parse` | src/paramsControl.cpp:25-85 | definition: NoParameters for argv of the program name alone, else the scan from index 1 followed by `RequireFields` |
| `ParamsControl.ScanStep` | src/paramsControl.cpp:34-67 | a step goes forward within argv and never changes keep_fields; a step of one position changes nothing; a stop carries status 1 |
| `ParamsControl.CheckParameters` | src/paramsControl.cpp:25-85 | the argv loop returns exactly what `Parse` gives |
| `ParamsControl.ScanFailsWithStatusOne` | src/paramsControl.cpp:34-67 | every stop during the scan exits with status 1 |
| `ParamsControl.ParseFailsWithStatusOne` | src/paramsControl.cpp:27-84 | every stop of checkParameters exits with status 1 |
| `ParamsControl.EmptyArgumentList` | src/paramsControl.cpp:27-31 | an argv holding only the program name stops with NoParameters |
| `ParamsControl.FlagConsumesValue` | src/paramsControl.cpp:36-58 | -i, -o and -type take the next argument only when it exists and does not start with '-', and stop otherwise; the -type value must be SNP or INDEL, checked before it is taken |
| `ParamsControl.DashValueRefused` | src/paramsControl.cpp:36-58 | a value starting with '-' stops the program with the reason for that flag: NoInputFilename for -i, NoOutputFilename for -o, NoFiletype for -type |
| `ParamsControl.UnknownArgumentSkipped` | src/paramsControl.cpp:34-67 | an argument that is none of the five flags is skipped |
| `ParamsControl.HelpAndVersionIgnoreRest` | src/paramsControl.cpp:60-66 | when -h or --version stops the scan, appending any arguments changes nothing |
| `ParamsControl.FlagNeverConsumedAsValue` | src/paramsControl.cpp:36-58 | a flag is never taken as another flag's value |
| `ParamsControl.AbsentFlagKeepsField` | src/paramsControl.cpp:34-67 | a flag that does not occur leaves its field as the caller passed it |
| `ParamsControl.LastOccurrenceWins` | src/paramsControl.cpp:34-58 | a field ends as the argument after the last occurrence of its flag |
| `ParamsControl.ScanKeepsFiletype` | src/paramsControl.cpp:49-55 | for a caller whose filetype starts empty, SNP or INDEL, as the default `Params` of main.cpp:44 does, the scan leaves the filetype empty, SNP or INDEL; keep_fields is unchanged |
| `ParamsControl.ParseSuccess` | src/paramsControl.cpp:49-84 | for a caller whose filetype starts empty, SNP or INDEL, as the default `Params` of main.cpp:44 does, a normal return has both file names non-empty, the filetype SNP or INDEL and keep_fields unchanged |
| `ParamsControl.MissingReportedInOrder` | src/paramsControl.cpp:70-84 | after a complete scan a missing -i is reported first, then -o, then -type |
| `ParamsControl.ExampleCommandLine` | src/paramsControl.cpp:25-85 | `-i in -o out -type SNP` yields those values and the default keep set |
| `ParamsControl.ExampleEmptyInput` | src/paramsControl.cpp:36-74 | an empty argument after -i is taken, and then reported as a missing -i |
| `ParamsControl.ExampleBadType` | src/paramsControl.cpp:49-54 | `-type snp` stops with InvalidFiletype |

## Left out

- The writer thread, mutex, condition variable, `done` flag and join (main.cpp:15-37, 124-130) exist only for concurrency. The hand-off is a plain append to `WriteQueue.items`.
- htslib I/O and header handling in main.cpp are not modelled: `hts_open`, `bcf_read`, `bcf_write`, `bcf_hdr_write`, `bcf_index_build` and the header-removal loop at main.cpp:71-89. That loop runs before any record is read and removes the eight FORMAT definitions and every INFO definition outside keep_fields from the header that `handleRecord` is then given. If htslib's `bcf_hdr_remove` makes `bcf_hdr_idinfo_exists` false for a removed id, the reads in `handleRecord` find none of QD, FS, ReadPosRankSum, MQ and MQRankSum unless keep_fields names them (`UndeclaredOptionalFieldsDisableRules`), and the INFO removals in `handleRecord` remove nothing (`StrippedHeaderStripsNothing`). The eight FORMAT clears at src/processLine.cpp:85-108 also go through the header, whose definitions of those keys main.cpp:71-78 removed; if `bcf_update_format` does nothing for a key the header does not declare, those clears remove nothing, while `ClearFormatFields` always removes the keys. htslib is not part of this model, so `HandleRecord` takes the header as a free parameter and reads INFO through it (`Vcf.Readable`). `bcf_unpack` has no effect in the model. `bcf_get_info_*` and the `bcf_update_*` calls become map reads and key removals.
- INFO types are not modelled: every INFO value is a number. A `bcf_get_info_float` call on a key the header declares with another type fails and leaves the count at 0, so in the program such a key counts as absent; the model reads its values.
- Float rounding is not modelled: QUAL, INFO values and the missing rate are exact reals. So is the int-to-float cast of AN. A missing QUAL (a NaN, which passes src/processLine.cpp:14) is not modelled.
- ProcessLine.Evaluate: requires n_samples > 0. With n_samples = 0 the source's float division yields an infinity or a NaN, and the record passes the missing-rate rule unless AN is negative, which drops it.
- ProcessLine.HandleRecord: requires that the decision is not `AnUnreadable`. When AF passes and AN has no value, the source reads `an_value[0]` through a null pointer, and its behaviour is undefined.
- ProcessLine.ClearFormat: the status `bcf_update_format_float` returns only decides whether an error is logged. The model always removes the key, and the record is enqueued either way.
- Rewrite.RewriteRecord: requires at least 2 n_samples GT entries. A haploid or absent GT with fewer entries is read out of bounds by src/RewriteRecord.cpp:30-31, and the model excludes that input.
- Rewrite.RewriteRecord: requires `controller.n_alleles == record->n_allele`, as main.cpp:115 arranges. The source range-checks against the first count and shifts by the second.
- Rewrite.RewriteRecord: the GT fetch at src/RewriteRecord.cpp:29 is modelled as `gt` already holding the record's GT entries. Possible reallocation of `gt_arr` and the missing write-back of `gt_arr` to the record are not modelled. The source ignores the fetch's return status.
- Rewrite.RewriteRecord: nothing in the source calls it (src/processLine.cpp:5 only includes its header). The model keeps it standalone.
- Memory behaviour is not modelled: leaked INFO buffers, and the `bcf_dup` copy of a dropped record (main.cpp:116) that is never freed.
- The commented-out AD recomputation (src/RewriteRecord.cpp:47-82) is dead code.
- Logging, the `printUsage` and `printVersion` text, and timing are output side effects and are not modelled. -h and --version are modelled only as stops with status 1.
- ParamsControl.CheckParameters: requires at least the program name in argv. With argc = 0 the source passes a null `argv[0]` to `printUsage`.
