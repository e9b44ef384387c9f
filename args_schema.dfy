/**
 * The engine-argument schema: `alpha` and `beta`, when present, are strings
 * matching `^([0-4](\.\d+)?|5(\.0+)?)$`, and reach the engine unchanged
 * (or as the empty string when absent). The schema is stated twice: as
 * written, where `$` also matches before a final newline, and as evidently
 * intended, where the whole string must be a numeral.
 */
module ArgsSchema {
  import opened Decimal

  predicate AllZeros(s: string)
  {
    forall i :: 0 <= i < |s| ==> s[i] == '0'
  }

  /** The group `([0-4](\.\d+)?|5(\.0+)?)` matched against the whole of `s`. */
  predicate MatchesGroup(s: string)
  {
    |s| >= 1 &&
    (('0' <= s[0] <= '4' && (|s| == 1 || (|s| >= 3 && s[1] == '.' && AllDigits(s[2..])))) ||
     (s[0] == '5' && (|s| == 1 || (|s| >= 3 && s[1] == '.' && AllZeros(s[2..])))))
  }

  /** The pattern as Python's `re.search` applies it: `^` anchors at the start,
      and `$` matches at the end or just before a final newline. */
  predicate PatternAsWritten(s: string)
  {
    MatchesGroup(s) || (|s| >= 1 && s[|s| - 1] == '\n' && MatchesGroup(s[..|s| - 1]))
  }

  /** The evidently intended check: the whole string is in the group's language. */
  predicate Pattern(s: string)
  {
    MatchesGroup(s)
  }

  /** The pattern accepts exactly the one-digit numerals whose value is at most 5. */
  lemma PatternLanguage(s: string)
    ensures Pattern(s) <==> SmallNumeral(s)
  {
    if |s| >= 3 && AllDigits(s[2..]) {
      FracValueRange(s[2..]);
      FracValueZero(s[2..]);
    }
    if |s| >= 3 && s[0] == '5' && s[1] == '.' && AllZeros(s[2..]) {
      assert AllDigits(s[2..]);
    }
  }

  /** Every accepted string is read by `float()` as a value in [0, 5]. */
  lemma PatternRange(s: string)
    requires Pattern(s)
    ensures ParseDecimal(s).Some? && 0.0 <= ParseDecimal(s).value <= 5.0
  {
    PatternLanguage(s);
    ParseUnitNumeral(s);
    if |s| > 1 {
      FracValueRange(s[2..]);
    }
  }

  /** A one-digit numeral of value at most 5. */
  predicate SmallNumeral(s: string)
  {
    UnitNumeral(s) && UnitValue(s) <= 5.0
  }

  /** The pattern as written lets `"5\n"` through, which is not a numeral. */
  lemma PatternAsWrittenAcceptsNewline()
    ensures PatternAsWritten("5\n") && !Pattern("5\n") && !UnitNumeral("5\n")
  {
  }

  /** The pattern as written accepts exactly the small numerals, each
      either alone or followed by one newline. */
  lemma PatternAsWrittenLanguage(s: string)
    ensures PatternAsWritten(s) <==>
      SmallNumeral(s) || (|s| >= 1 && s[|s| - 1] == '\n' && SmallNumeral(s[..|s| - 1]))
  {
    PatternLanguage(s);
    if |s| >= 1 {
      PatternLanguage(s[..|s| - 1]);
    }
  }

  /** The argument object passes the schema as the source states it. */
  predicate ArgsValidAsWritten(args: map<string, string>)
  {
    ("alpha" in args ==> PatternAsWritten(args["alpha"])) &&
    ("beta" in args ==> PatternAsWritten(args["beta"]))
  }

  /** What the schema as written lets through: every object the intended
      schema passes, and also values carrying one final newline, which the
      intended schema refuses. */
  lemma ArgsAsWrittenLetThrough(args: map<string, string>)
    ensures ArgsValidAsWritten(args) <==>
      forall key :: key in args && (key == "alpha" || key == "beta") ==>
        SmallNumeral(args[key]) ||
        (|args[key]| >= 1 && args[key][|args[key]| - 1] == '\n' &&
         SmallNumeral(args[key][..|args[key]| - 1]))
    ensures ArgsValid(args) ==> ArgsValidAsWritten(args)
    ensures ArgsValidAsWritten(map["alpha" := "5\n"]) && !ArgsValid(map["alpha" := "5\n"])
  {
    if "alpha" in args { PatternAsWrittenLanguage(args["alpha"]); }
    if "beta" in args { PatternAsWrittenLanguage(args["beta"]); }
    PatternAsWrittenAcceptsNewline();
  }

  /** The argument object passes the intended schema. */
  predicate ArgsValid(args: map<string, string>)
  {
    ("alpha" in args ==> Pattern(args["alpha"])) &&
    ("beta" in args ==> Pattern(args["beta"]))
  }

  /** `engine_args.get(key, '')`: what reaches the engine's environment. */
  function EngineArg(args: map<string, string>, key: string): string
  {
    if key in args then args[key] else ""
  }

  /** An argument object the intended schema passes hands the engine, for
      `alpha` and `beta`, either nothing or a numeral whose value lies in
      [0, 5]; and an object passes the intended schema exactly when each of
      the two it holds is a one-digit numeral of value at most 5. */
  lemma EngineArgsInRange(args: map<string, string>)
    ensures ArgsValid(args) <==>
      forall key :: key in args && (key == "alpha" || key == "beta") ==>
        SmallNumeral(args[key])
    ensures ArgsValid(args) ==>
      forall key :: key == "alpha" || key == "beta" ==>
        EngineArg(args, key) == "" ||
        (ParseDecimal(EngineArg(args, key)).Some? &&
         0.0 <= ParseDecimal(EngineArg(args, key)).value <= 5.0)
  {
    PatternLanguage(EngineArg(args, "alpha"));
    PatternLanguage(EngineArg(args, "beta"));
    if ArgsValid(args) {
      if "alpha" in args { PatternRange(args["alpha"]); }
      if "beta" in args { PatternRange(args["beta"]); }
    }
  }
}
