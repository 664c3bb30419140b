/** Command-line arguments (configurations/program_arguments.go): the
    operating mode is accepted case-insensitively and ignoring surrounding
    white space, and must be one of "single" and "distributed". Flag
    parsing itself is not part of this model. */
module ProgramArguments {
  import opened Wrappers
  import opened Text

  datatype ProgramArguments = ProgramArguments(mode: string, configPath: string, help: bool, version: bool)

  const ModeSingle := "single"
  const ModeDistributed := "distributed"
  const DefaultMode := ModeSingle
  const DefaultConfigPath := ".config.yml"
  const ValidModes: seq<string> := [ModeSingle, ModeDistributed]

  /** The arguments when no flag is given. */
  const Defaults := ProgramArguments(DefaultMode, DefaultConfigPath, false, false)

  /** `value`, normalised, is the lower-case form of one of `validValues`. */
  predicate IsValid(value: string, validValues: seq<string>) {
    exists i :: 0 <= i < |validValues| && ToLower(validValues[i]) == LowerTrimmed(value)
  }

  /** `isValidValue`: a linear search for an exact match after
      normalisation. */
  method IsValidValue(value: string, validValues: seq<string>) returns (b: bool)
    ensures b <==> IsValid(value, validValues)
  {
    var valueLower := LowerTrimmed(value);
    for i := 0 to |validValues|
      invariant forall k :: 0 <= k < i ==> ToLower(validValues[k]) != valueLower
    {
      if ToLower(validValues[i]) == valueLower {
        return true;
      }
    }
    return false;
  }

  /** `GetMode`: the mode lower-cased and without surrounding white space. */
  function GetMode(pa: ProgramArguments): (m: string)
    ensures m == ToLower(TrimSpace(pa.mode))
    ensures |m| <= |pa.mode|
    ensures forall k :: 0 <= k < |m| ==> !IsUpper(m[k])
    ensures m != [] ==> !IsSpace(m[0]) && !IsSpace(m[|m| - 1])
  {
    LowerTrimmed(pa.mode)
  }

  /** The message `Validate` reports for an unknown mode. */
  function InvalidModeMessage(mode: string): string {
    "invalid mode '" + mode + "': must be one of single, distributed"
  }

  /** The lower-case forms of the valid modes are the modes themselves. */
  lemma ValidModesLower()
    ensures ToLower(ModeSingle) == ModeSingle && ToLower(ModeDistributed) == ModeDistributed
  {
    ToLowerOfLower(ModeSingle);
    ToLowerOfLower(ModeDistributed);
  }

  /** `Validate`: the only check is the mode; its failure message names the
      mode and contains "invalid mode". */
  method Validate(pa: ProgramArguments) returns (r: Result<Unit>)
    ensures r.Ok? <==> IsValid(pa.mode, ValidModes)
    ensures r.Err? ==> r.msg == InvalidModeMessage(pa.mode) && Contains(r.msg, "invalid mode")
  {
    var ok := IsValidValue(pa.mode, ValidModes);
    if !ok {
      assert OccursAt(InvalidModeMessage(pa.mode), "invalid mode", 0);
      return Err(InvalidModeMessage(pa.mode));
    }
    return Ok(());
  }

  /** The valid modes are exactly the two modes, once normalised. */
  lemma IsValidModes(value: string)
    ensures IsValid(value, ValidModes) <==> LowerTrimmed(value) == ModeSingle || LowerTrimmed(value) == ModeDistributed
  {
    ValidModesLower();
    if LowerTrimmed(value) == ModeSingle {
      assert ToLower(ValidModes[0]) == LowerTrimmed(value);
    } else if LowerTrimmed(value) == ModeDistributed {
      assert ToLower(ValidModes[1]) == LowerTrimmed(value);
    }
  }

  /** A mode accepted once stays accepted after normalising it: `GetMode` of
      a valid mode is itself valid. */
  lemma GetModeOfValidIsValid(pa: ProgramArguments)
    requires IsValid(pa.mode, ValidModes)
    ensures IsValid(GetMode(pa), ValidModes)
    ensures GetMode(pa) == ModeSingle || GetMode(pa) == ModeDistributed
  {
    IsValidModes(pa.mode);
    LowerTrimmedIdempotent(pa.mode);
    IsValidModes(GetMode(pa));
  }

  /** A string that is already trimmed and lower-case is valid only if it
      is one of the two modes: a prefix of a mode is not accepted. */
  lemma NormalisedModeExact(value: string)
    requires value != [] ==> !IsSpace(value[0]) && !IsSpace(value[|value| - 1])
    requires forall k :: 0 <= k < |value| ==> !IsUpper(value[k])
    ensures IsValid(value, ValidModes) <==> value == ModeSingle || value == ModeDistributed
  {
    TrimSpaceOfTrimmed(value);
    ToLowerOfLower(value);
    IsValidModes(value);
  }

  /** White space around a mode never changes whether it is valid. */
  lemma PaddedModeValid(pre: string, value: string, post: string)
    requires forall k :: 0 <= k < |pre| ==> IsSpace(pre[k])
    requires forall k :: 0 <= k < |post| ==> IsSpace(post[k])
    ensures IsValid(pre + value + post, ValidModes) <==> IsValid(value, ValidModes)
  {
    LowerTrimmedPadded(pre, value, post);
    IsValidModes(pre + value + post);
    IsValidModes(value);
  }

  /** A proper prefix of a mode, the empty string among them, is not a
      valid mode. */
  lemma ShortModesInvalid(value: string)
    requires (value < ModeSingle) || (value < ModeDistributed)
    ensures !IsValid(value, ValidModes)
  {
    var mode := if value < ModeSingle then ModeSingle else ModeDistributed;
    assert forall k :: 0 <= k < |mode| ==> 'a' <= mode[k] <= 'z';
    assert forall k :: 0 <= k < |value| ==> value[k] == mode[k];
    NormalisedModeExact(value);
  }
}
