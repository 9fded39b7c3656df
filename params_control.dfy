/**
 * checkParameters (src/paramsControl.cpp): a left-to-right scan of argv that
 * fills a Params value or stops the program with exit status 1. A stop is a
 * Failure carrying the status and the reason the program printed.
 */
module ParamsControl {
  import opened Wrappers
  import opened Parameters

  const EXIT_FAILURE: int := 1

  datatype Reason =
    | NoParameters         // argc == 1
    | NoInputFilename      // -i without a usable value
    | NoOutputFilename     // -o without a usable value
    | NoFiletype           // -type without a usable value
    | InvalidFiletype      // -type value other than SNP or INDEL
    | HelpRequested        // -h
    | VersionRequested     // --version
    | MissingInput         // no -i after the scan
    | MissingOutput        // no -o after the scan
    | MissingFiletype      // no -type after the scan

  datatype Halt = Halt(status: int, reason: Reason)

  function Stop(reason: Reason): Halt
  {
    Halt(EXIT_FAILURE, reason)
  }

  /** The flags that take a value, and the Params field each one sets. */
  datatype Flag = Input | Output | Filetype

  function FlagName(f: Flag): string
  {
    match f
    case Input => "-i"
    case Output => "-o"
    case Filetype => "-type"
  }

  function Field(p: Params, f: Flag): string
  {
    match f
    case Input => p.inputFilename
    case Output => p.outputFilename
    case Filetype => p.filetype
  }

  predicate IsFiletype(s: string)
  {
    s == "SNP" || s == "INDEL"
  }

  /**
   * `i + 1 < argc && argv[i + 1][0] != '-'`: the next argument exists and does
   * not start with '-' (an empty argument's first char is the terminating NUL).
   */
  predicate HasValue(argv: seq<string>, i: nat)
  {
    i + 1 < |argv| && (|argv[i + 1]| == 0 || argv[i + 1][0] != '-')
  }

  /** One step of the scan: go on at `next` with new Params, or stop. */
  datatype Step = Continue(next: nat, params: Params) | Halted(halt: Halt)

  /** The body of the loop at src/paramsControl.cpp:34-67, for `i` inside argv. */
  function ScanStep(argv: seq<string>, i: nat, p: Params): (s: Step)
    requires i < |argv|
    ensures s.Continue? ==> i < s.next <= |argv| && s.params.keepFields == p.keepFields
    ensures s.Continue? && s.next == i + 1 ==> s.params == p
    ensures s.Halted? ==> s.halt.status == EXIT_FAILURE
  {
    var arg := argv[i];
    if arg == "-i" then
      if HasValue(argv, i) then Continue(i + 2, p.(inputFilename := argv[i + 1]))
      else Halted(Stop(NoInputFilename))
    else if arg == "-o" then
      if HasValue(argv, i) then Continue(i + 2, p.(outputFilename := argv[i + 1]))
      else Halted(Stop(NoOutputFilename))
    else if arg == "-type" then
      if HasValue(argv, i) then
        if argv[i + 1] != "SNP" && argv[i + 1] != "INDEL" then Halted(Stop(InvalidFiletype))
        else Continue(i + 2, p.(filetype := argv[i + 1]))
      else Halted(Stop(NoFiletype))
    else if arg == "-h" then Halted(Stop(HelpRequested))
    else if arg == "--version" then Halted(Stop(VersionRequested))
    else Continue(i + 1, p)
  }

  /** The scan from position `i` to the end of argv. */
  function ScanFrom(argv: seq<string>, i: nat, p: Params): (r: Result<Params, Halt>)
    decreases |argv| - i
  {
    if i >= |argv| then Success(p)
    else match ScanStep(argv, i, p)
      case Halted(h) => Failure(h)
      case Continue(j, q) => ScanFrom(argv, j, q)
  }

  /** The required-flag checks at src/paramsControl.cpp:70-84, in their order. */
  function RequireFields(p: Params): (r: Result<Params, Halt>)
  {
    if p.inputFilename == "" then Failure(Stop(MissingInput))
    else if p.outputFilename == "" then Failure(Stop(MissingOutput))
    else if p.filetype == "" then Failure(Stop(MissingFiletype))
    else Success(p)
  }

  /** What checkParameters does with argv (program name first) and the caller's Params. */
  function Parse(argv: seq<string>, params: Params): Result<Params, Halt>
    requires |argv| >= 1
  {
    if |argv| == 1 then Failure(Stop(NoParameters))
    else match ScanFrom(argv, 1, params)
      case Failure(h) => Failure(h)
      case Success(p) => RequireFields(p)
  }

  /** checkParameters: the index loop over argv, `++i` consuming a flag's value. */
  method CheckParameters(argv: seq<string>, params: Params) returns (r: Result<Params, Halt>)
    requires |argv| >= 1
    ensures r == Parse(argv, params)
  {
    if |argv| == 1 {
      return Failure(Stop(NoParameters));
    }
    var p := params;
    var i := 1;
    while i < |argv|
      invariant 1 <= i <= |argv|
      invariant ScanFrom(argv, i, p) == ScanFrom(argv, 1, params)
      decreases |argv| - i
    {
      var arg := argv[i];
      if arg == "-i" {
        if i + 1 < |argv| && (|argv[i + 1]| == 0 || argv[i + 1][0] != '-') {
          i := i + 1;
          p := p.(inputFilename := argv[i]);
        } else {
          return Failure(Stop(NoInputFilename));
        }
      } else if arg == "-o" {
        if i + 1 < |argv| && (|argv[i + 1]| == 0 || argv[i + 1][0] != '-') {
          i := i + 1;
          p := p.(outputFilename := argv[i]);
        } else {
          return Failure(Stop(NoOutputFilename));
        }
      } else if arg == "-type" {
        if i + 1 < |argv| && (|argv[i + 1]| == 0 || argv[i + 1][0] != '-') {
          if argv[i + 1] != "SNP" && argv[i + 1] != "INDEL" {
            return Failure(Stop(InvalidFiletype));
          }
          i := i + 1;
          p := p.(filetype := argv[i]);
        } else {
          return Failure(Stop(NoFiletype));
        }
      } else if arg == "-h" {
        return Failure(Stop(HelpRequested));
      } else if arg == "--version" {
        return Failure(Stop(VersionRequested));
      }
      i := i + 1;
    }
    if p.inputFilename == "" {
      return Failure(Stop(MissingInput));
    }
    if p.outputFilename == "" {
      return Failure(Stop(MissingOutput));
    }
    if p.filetype == "" {
      return Failure(Stop(MissingFiletype));
    }
    return Success(p);
  }

  // ---------------------------------------------------------------------------
  // Properties of the scan

  /** Every way checkParameters stops is std::exit(1). */
  lemma {:induction false} ScanFailsWithStatusOne(argv: seq<string>, i: nat, p: Params)
    ensures ScanFrom(argv, i, p).Failure? ==> ScanFrom(argv, i, p).error.status == EXIT_FAILURE
    decreases |argv| - i
  {
    if i < |argv| {
      match ScanStep(argv, i, p)
      case Halted(h) =>
      case Continue(j, q) => ScanFailsWithStatusOne(argv, j, q);
    }
  }

  lemma ParseFailsWithStatusOne(argv: seq<string>, params: Params)
    requires |argv| >= 1
    ensures Parse(argv, params).Failure? ==> Parse(argv, params).error.status == EXIT_FAILURE
  {
    if |argv| > 1 {
      ScanFailsWithStatusOne(argv, 1, params);
    }
  }

  /** An argument list holding only the program name is refused. */
  lemma EmptyArgumentList(prog: string, params: Params)
    ensures Parse([prog], params) == Failure(Halt(EXIT_FAILURE, NoParameters))
  {
  }

  /**
   * A value-taking flag reached by the scan consumes the next argument when it
   * exists and does not start with '-', and stops the program otherwise.
   */
  lemma FlagConsumesValue(argv: seq<string>, i: nat, p: Params, f: Flag)
    requires i < |argv| && argv[i] == FlagName(f)
    ensures f != Filetype ==>
      ScanFrom(argv, i, p) == if HasValue(argv, i)
        then ScanFrom(argv, i + 2, if f == Input then p.(inputFilename := argv[i + 1])
                                   else p.(outputFilename := argv[i + 1]))
        else Failure(Stop(if f == Input then NoInputFilename else NoOutputFilename))
    ensures f == Filetype ==>
      ScanFrom(argv, i, p) == if !HasValue(argv, i) then Failure(Stop(NoFiletype))
        else if !IsFiletype(argv[i + 1]) then Failure(Stop(InvalidFiletype))
        else ScanFrom(argv, i + 2, p.(filetype := argv[i + 1]))
  {
  }

  /** A value that starts with '-' is never taken: the flag stops the program. */
  lemma DashValueRefused(argv: seq<string>, i: nat, p: Params, f: Flag)
    requires i + 1 < |argv| && argv[i] == FlagName(f)
    requires |argv[i + 1]| > 0 && argv[i + 1][0] == '-'
    ensures ScanFrom(argv, i, p) == Failure(Stop(match f
      case Input => NoInputFilename
      case Output => NoOutputFilename
      case Filetype => NoFiletype))
  {
  }

  /** An argument that is not one of the five flags is skipped. */
  lemma UnknownArgumentSkipped(argv: seq<string>, i: nat, p: Params)
    requires i < |argv|
    requires argv[i] !in {"-i", "-o", "-type", "-h", "--version"}
    ensures ScanFrom(argv, i, p) == ScanFrom(argv, i + 1, p)
  {
  }

  /**
   * -h and --version stop the scan where they are reached: whatever follows
   * in argv is never examined.
   */
  lemma {:induction false} HelpAndVersionIgnoreRest(argv: seq<string>, rest: seq<string>, i: nat, p: Params)
    requires ScanFrom(argv, i, p).Failure?
    requires ScanFrom(argv, i, p).error.reason in {HelpRequested, VersionRequested}
    ensures ScanFrom(argv + rest, i, p) == ScanFrom(argv, i, p)
    decreases |argv| - i
  {
    var all := argv + rest;
    assert i < |argv|;
    assert all[i] == argv[i];
    if ScanStep(argv, i, p).Continue? {
      var s := ScanStep(argv, i, p);
      if s.next == i + 2 {
        assert all[i + 1] == argv[i + 1];
      }
      assert ScanStep(all, i, p) == s;
      HelpAndVersionIgnoreRest(argv, rest, s.next, s.params);
    }
  }

  /** A flag's argument never doubles as the value of another flag. */
  lemma FlagNeverConsumedAsValue(argv: seq<string>, i: nat, p: Params, j: nat, f: Flag)
    requires i < |argv| && ScanStep(argv, i, p).Continue?
    requires i < j < |argv| && argv[j] == FlagName(f)
    ensures ScanStep(argv, i, p).next <= j
  {
  }

  /** A flag that does not occur from position `i` on leaves its field as it was. */
  lemma {:induction false} AbsentFlagKeepsField(argv: seq<string>, i: nat, p: Params, f: Flag)
    requires ScanFrom(argv, i, p).Success?
    requires forall k :: i <= k < |argv| ==> argv[k] != FlagName(f)
    ensures Field(ScanFrom(argv, i, p).value, f) == Field(p, f)
    decreases |argv| - i
  {
    if i < |argv| {
      var s := ScanStep(argv, i, p);
      assert argv[i] != FlagName(f);
      assert Field(s.params, f) == Field(p, f);
      AbsentFlagKeepsField(argv, s.next, s.params, f);
    }
  }

  /**
   * A repeated flag keeps its last value: the field holds the argument after
   * the last occurrence of the flag.
   */
  lemma {:induction false} LastOccurrenceWins(argv: seq<string>, i: nat, p: Params, f: Flag, j: nat)
    requires ScanFrom(argv, i, p).Success?
    requires i <= j < |argv| && argv[j] == FlagName(f)
    requires forall k :: j < k < |argv| ==> argv[k] != FlagName(f)
    ensures j + 1 < |argv| && Field(ScanFrom(argv, i, p).value, f) == argv[j + 1]
    decreases |argv| - i
  {
    var s := ScanStep(argv, i, p);
    if i == j {
      assert s.next == i + 2 && Field(s.params, f) == argv[j + 1];
      AbsentFlagKeepsField(argv, s.next, s.params, f);
    } else {
      FlagNeverConsumedAsValue(argv, i, p, j, f);
      LastOccurrenceWins(argv, s.next, s.params, f, j);
    }
  }

  /** The scan never leaves a filetype other than SNP or INDEL in a Params it started without one. */
  lemma {:induction false} ScanKeepsFiletype(argv: seq<string>, i: nat, p: Params)
    requires p.filetype == "" || IsFiletype(p.filetype)
    requires ScanFrom(argv, i, p).Success?
    ensures ScanFrom(argv, i, p).value.filetype == "" || IsFiletype(ScanFrom(argv, i, p).value.filetype)
    ensures ScanFrom(argv, i, p).value.keepFields == p.keepFields
    decreases |argv| - i
  {
    if i < |argv| {
      var s := ScanStep(argv, i, p);
      ScanKeepsFiletype(argv, s.next, s.params);
    }
  }

  /**
   * On normal return both file names are non-empty, the filetype is SNP or
   * INDEL, and keep_fields is the caller's.
   */
  lemma ParseSuccess(argv: seq<string>, params: Params)
    requires |argv| >= 1
    requires params.filetype == "" || IsFiletype(params.filetype)
    requires Parse(argv, params).Success?
    ensures Parse(argv, params).value.inputFilename != ""
    ensures Parse(argv, params).value.outputFilename != ""
    ensures IsFiletype(Parse(argv, params).value.filetype)
    ensures Parse(argv, params).value.keepFields == params.keepFields
  {
    ScanKeepsFiletype(argv, 1, params);
  }

  /** After a complete scan the missing flags are reported -i first, then -o, then -type. */
  lemma MissingReportedInOrder(argv: seq<string>, params: Params, p: Params)
    requires |argv| > 1 && ScanFrom(argv, 1, params) == Success(p)
    ensures p.inputFilename == "" ==> Parse(argv, params) == Failure(Stop(MissingInput))
    ensures p.inputFilename != "" && p.outputFilename == "" ==>
      Parse(argv, params) == Failure(Stop(MissingOutput))
    ensures p.inputFilename != "" && p.outputFilename != "" && p.filetype == "" ==>
      Parse(argv, params) == Failure(Stop(MissingFiletype))
    ensures p.inputFilename != "" && p.outputFilename != "" && p.filetype != "" ==>
      Parse(argv, params) == Success(p)
  {
  }

  // ---------------------------------------------------------------------------
  // Worked argument lists

  lemma ExampleCommandLine()
    ensures Parse(["filtersnp", "-i", "in.vcf.gz", "-o", "out.vcf.gz", "-type", "SNP"], DEFAULT_PARAMS)
         == Success(Params("in.vcf.gz", "out.vcf.gz", "SNP", DEFAULT_KEEP_FIELDS))
  {
  }

  /** An empty value is consumed by -i, and then reported as a missing -i. */
  lemma ExampleEmptyInput()
    ensures Parse(["filtersnp", "-i", "", "-o", "out.vcf", "-type", "INDEL"], DEFAULT_PARAMS)
         == Failure(Stop(MissingInput))
  {
  }

  /** The type value is checked before it is consumed. */
  lemma ExampleBadType()
    ensures Parse(["filtersnp", "-i", "a", "-o", "b", "-type", "snp"], DEFAULT_PARAMS)
         == Failure(Stop(InvalidFiletype))
  {
  }
}
