/** The run-time parameters of the report and the rules by which their spellings
    are accepted: src/tm_report.c, over strtol as section 7.22.1.4 of ISO/IEC
    9899:2011 describes it. */
module Options {
  import opened Wrappers
  import opened Decimal
  import Printf

  // ----- strtol, base 10 -----

  /** White space in the "C" locale. */
  predicate IsSpace(c: char) {
    c == ' ' || c == '\t' || c == '\n' || c == '\U{0B}' || c == '\U{0C}' || c == '\r'
  }

  predicate AllSpace(s: string) {
    forall i | 0 <= i < |s| :: IsSpace(s[i])
  }

  /** How many characters at the front are white space. */
  function Spaces(s: string): (n: nat)
    ensures n <= |s| && AllSpace(s[..n])
    ensures n < |s| ==> !IsSpace(s[n])
  {
    if s == [] || !IsSpace(s[0]) then 0 else 1 + Spaces(s[1..])
  }

  /** How many characters at the front are digits. */
  function Run(s: string): (n: nat)
    ensures n <= |s| && AllDigits(s[..n])
    ensures n < |s| ==> !IsDigit(s[n])
  {
    if s == [] || !IsDigit(s[0]) then 0 else 1 + Run(s[1..])
  }

  /** The value, the index of the first character not converted, and whether errno
      was set to ERANGE. */
  datatype Converted = Converted(val: int, end: nat, erange: bool)

  /** The number a row of digits stands for behind a sign. */
  function SignedValue(negative: bool, digits: string): int
    requires AllDigits(digits)
  {
    var v: int := Value(digits);
    if negative then -v else v
  }

  predicate IsSign(c: char) {
    c == '+' || c == '-'
  }

  /** Where the digits begin: after the white space and a sign, if there is one. */
  function Signs(s: string): (n: nat)
    ensures n <= |s| && n <= 1
  {
    if s != [] && IsSign(s[0]) then 1 else 0
  }

  /** LONG_MAX: a long is at least as wide as an int. */
  type LongMax = m: int | m >= INT_MAX witness INT_MAX

  function LongMin(longMax: LongMax): int {
    -1 - (longMax as int)
  }

  /** `longMax` is LONG_MAX; what is out of range is clamped. */
  function Strtol(s: string, longMax: LongMax): (r: Converted)
    ensures r.end <= |s|
  {
    var w := Spaces(s);
    var t := s[w..];
    var n := Signs(t);
    var d := Run(t[n..]);
    if d == 0 then Converted(0, 0, false)
    else
      var v := SignedValue(t[0] == '-', t[n..][..d]);
      if v > longMax then Converted(longMax, w + n + d, true)
      else if v < LongMin(longMax) then Converted(LongMin(longMax), w + n + d, true)
      else Converted(v, w + n + d, false)
  }

  // ----- acceptance -----

  /** No range error, something was converted, nothing is left over, and the value
      lies between `least` and INT_MAX. */
  function Accept(s: string, longMax: LongMax, least: nat): Option<int> {
    var r := Strtol(s, longMax);
    if !r.erange && r.end != 0 && r.end == |s| && least <= r.val <= INT_MAX then Some(r.val) else None
  }

  /** `s` spells `v`: white space, a sign or none, and at least one digit. */
  ghost predicate Spells(s: string, v: int) {
    exists space, sign, digits :: SpellsAs(s, v, space, sign, digits)
  }

  predicate SpellsAs(s: string, v: int, space: string, sign: string, digits: string) {
    && s == space + sign + digits
    && AllSpace(space) && (sign == "" || sign == "+" || sign == "-")
    && digits != [] && AllDigits(digits)
    && v == SignedValue(sign == "-", digits)
  }

  lemma {:induction false} SpacesOf(space: string, t: string)
    requires AllSpace(space) && (t != [] ==> !IsSpace(t[0]))
    ensures Spaces(space + t) == |space|
  {
    if space == [] {
      assert space + t == t;
    } else {
      assert (space + t)[1..] == space[1..] + t;
      SpacesOf(space[1..], t);
    }
  }

  lemma {:induction false} RunOf(digits: string)
    requires AllDigits(digits)
    ensures Run(digits) == |digits|
  {
    if digits == [] {
    } else {
      RunOf(digits[1..]);
    }
  }

  /** Every spelling of a number that a long can hold is converted in full. */
  lemma SpellingIsConverted(s: string, v: int, longMax: LongMax, space: string, sign: string, digits: string)
    requires SpellsAs(s, v, space, sign, digits) && LongMin(longMax) <= v <= longMax
    ensures Strtol(s, longMax) == Converted(v, |s|, false)
  {
    SpellingParts(space, sign, digits);
    RunOf(digits);
    assert digits[..|digits|] == digits;
  }

  lemma SpellingParts(space: string, sign: string, digits: string)
    requires AllSpace(space) && (sign == "" || sign == "+" || sign == "-") && digits != [] && AllDigits(digits)
    ensures var s, t := space + sign + digits, sign + digits;
      && Spaces(s) == |space| && s[|space|..] == t
      && Signs(t) == |sign| && t[|sign|..] == digits && (t[0] == '-' <==> sign == "-")
  {
    var t := sign + digits;
    assert space + sign + digits == space + t;
    SignsOf(sign, digits);
    SpacesOf(space, t);
  }

  lemma SignsOf(sign: string, digits: string)
    requires (sign == "" || sign == "+" || sign == "-") && digits != [] && AllDigits(digits)
    ensures Signs(sign + digits) == |sign| && (sign + digits)[|sign|..] == digits
    ensures (sign + digits)[0] == '-' <==> sign == "-"
    ensures !IsSpace((sign + digits)[0])
  {
    var t := sign + digits;
    assert sign == "" ==> t[0] == digits[0] && IsDigit(digits[0]);
    assert sign != "" ==> t[0] == sign[0];
  }

  /** What is converted in full is a spelling. */
  lemma ConvertedIsSpelled(s: string, longMax: LongMax)
    requires Strtol(s, longMax).end == |s| && |s| > 0 && !Strtol(s, longMax).erange
    ensures Spells(s, Strtol(s, longMax).val)
  {
    var w := Spaces(s);
    var t := s[w..];
    var n := Signs(t);
    var digits := t[n..];
    assert digits[..Run(digits)] == digits;
    assert s == s[..w] + t[..n] + digits;
    assert n == 1 ==> t[..n] == [t[0]];
    assert SpellsAs(s, Strtol(s, longMax).val, s[..w], t[..n], digits);
  }

  /** A setting is accepted exactly if it spells a number from `least` to INT_MAX,
      and then as that number, however wide a long is. */
  lemma AcceptedIffSpelled(s: string, longMax: LongMax, least: nat, v: int)
    ensures Accept(s, longMax, least) == Some(v) <==> Spells(s, v) && least <= v <= INT_MAX
  {
    if Spells(s, v) && least <= v <= INT_MAX {
      var space, sign, digits :| SpellsAs(s, v, space, sign, digits);
      SpellingIsConverted(s, v, longMax, space, sign, digits);
    }
    if Accept(s, longMax, least) == Some(v) {
      ConvertedIsSpelled(s, longMax);
    }
  }

  /** The printed form of an int is taken back unchanged wherever it is in range,
      and is refused elsewhere. */
  lemma PrintedIsTakenBack(v: int, longMax: LongMax, least: nat)
    requires INT_MIN <= v <= INT_MAX
    ensures Accept(Signed(v), longMax, least) == if v >= least then Some(v) else None
  {
    PrintedSpells(v);
    SpellingIsConverted(Signed(v), v, longMax, [], SignOf(v), Digits(Magnitude(v)));
    AcceptConverted(Signed(v), longMax, least, v);
  }

  lemma AcceptConverted(s: string, longMax: LongMax, least: nat, v: int)
    requires s != [] && v <= INT_MAX && Strtol(s, longMax) == Converted(v, |s|, false)
    ensures Accept(s, longMax, least) == if v >= least then Some(v) else None
  {
  }

  function SignOf(v: int): string {
    if v < 0 then "-" else ""
  }

  function Magnitude(v: int): nat {
    if v < 0 then -v else v
  }

  lemma PrintedSpells(v: int)
    ensures SpellsAs(Signed(v), v, [], SignOf(v), Digits(Magnitude(v))) && Signed(v) != []
  {
    NumeralSpells(Magnitude(v));
    if v < 0 {
      assert Signed(v) == [] + "-" + Digits(Magnitude(v));
    } else {
      assert Signed(v) == [] + "" + Digits(Magnitude(v));
    }
  }

  lemma NumeralSpells(m: nat)
    ensures Digits(m) != [] && AllDigits(Digits(m)) && Value(Digits(m)) == m
  {
    ParsesBack(m);
    DigitsAreCanonical(m);
  }

  /** What the formatted printer prints for an int spells that int, so a duration put
      out by the report is taken back unchanged. */
  lemma FormattedIntIsTakenBack(n: int, longMax: LongMax, least: nat)
    requires INT_MIN <= n <= INT_MAX
    ensures Printf.Fits(Printf.Pieces("%d"), [Printf.Int(n)])
    ensures Spells(Printf.Render(Printf.Pieces("%d"), [Printf.Int(n)]), n)
    ensures Accept(Printf.Render(Printf.Pieces("%d"), [Printf.Int(n)]), longMax, least)
         == if n >= least then Some(n) else None
  {
    FormatPrintsSigned(n);
    PrintedSpells(n);
    PrintedIsTakenBack(n, longMax, least);
  }

  lemma FormatPrintsSigned(n: int)
    requires INT_MIN <= n <= INT_MAX
    ensures Printf.Fits(Printf.Pieces("%d"), [Printf.Int(n)])
    ensures Printf.Render(Printf.Pieces("%d"), [Printf.Int(n)]) == Signed(n)
  {
    Printf.ConversionsPrint(0, n, "");
  }

  /** White space and a sign may come before the digits, and nothing may follow. */
  lemma SettingsSpelledOut(longMax: LongMax)
    ensures Accept("60", longMax, 1) == Some(60)
    ensures Accept(" \t\n\r\U{0B}\U{0C}+60", longMax, 1) == Some(60)
    ensures Accept("-5", longMax, 0) == None
    ensures Accept("0", longMax, 0) == Some(0) && Accept("0", longMax, 1) == None
    ensures Accept("60s", longMax, 1) == None && Accept("", longMax, 0) == None
    ensures Accept("2147483648", longMax, 0) == None
  {
    NumeralsSpelledOut();
    PrintedIsTakenBack(60, longMax, 1);
    PrintedIsTakenBack(-5, longMax, 0);
    PrintedIsTakenBack(0, longMax, 0);
    PrintedIsTakenBack(0, longMax, 1);
    LeadingSpaceIsSkipped(longMax);
    TrailingLetterIsRefused(longMax);
    TooLargeIsRefused(longMax);
  }

  lemma LeadingSpaceIsSkipped(longMax: LongMax)
    ensures Accept(" \t\n\r\U{0B}\U{0C}+60", longMax, 1) == Some(60)
  {
    var s := " \t\n\r\U{0B}\U{0C}+60";
    NumeralsSpelledOut();
    NumeralSpells(60);
    assert s == " \t\n\r\U{0B}\U{0C}" + "+" + "60";
    assert SpellsAs(s, 60, " \t\n\r\U{0B}\U{0C}", "+", "60");
    AcceptedIffSpelled(s, longMax, 1, 60);
  }

  lemma TrailingLetterIsRefused(longMax: LongMax)
    ensures Accept("60s", longMax, 1) == None
  {
    var r := Accept("60s", longMax, 1);
    if r.Some? {
      AcceptedIffSpelled("60s", longMax, 1, r.value);
      var space, sign, digits :| SpellsAs("60s", r.value, space, sign, digits);
      LastIsDigit("60s", r.value, space, sign, digits);
    }
  }

  lemma LastIsDigit(s: string, v: int, space: string, sign: string, digits: string)
    requires SpellsAs(s, v, space, sign, digits)
    ensures s != [] && IsDigit(s[|s| - 1])
  {
    assert s[|s| - 1] == digits[|digits| - 1];
  }

  lemma TooLargeIsRefused(longMax: LongMax)
    ensures Accept("2147483648", longMax, 0) == None
  {
    var s := "2147483648";
    NumeralsSpelledOut();
    PrintedSpells(2147483648);
    assert Spells(s, 2147483648);
    var r := Accept(s, longMax, 0);
    if r.Some? {
      AcceptedIffSpelled(s, longMax, 0, r.value);
      SpellsOne(s, r.value, 2147483648);
    }
  }

  /** What does not fit in a long is converted too, but clamped and reported. */
  lemma OutOfRangeIsClamped(s: string, v: int, longMax: LongMax, space: string, sign: string, digits: string)
    requires SpellsAs(s, v, space, sign, digits) && !(LongMin(longMax) <= v <= longMax)
    ensures Strtol(s, longMax) == Converted(if v > longMax then longMax else LongMin(longMax), |s|, true)
  {
    SpellingParts(space, sign, digits);
    RunOf(digits);
    assert digits[..|digits|] == digits;
  }

  // ----- where settings come from -----

  /** The parameter becomes the number that the variable spells, if the variable is
      set and spells one from `least` to INT_MAX, and otherwise stays. */
  ghost predicate FromEnvironment(env: Option<string>, least: nat, before: int, after: int) {
    if env.Some? && exists v | least <= v <= INT_MAX :: Spells(env.value, v)
    then least <= after <= INT_MAX && Spells(env.value, after)
    else after == before
  }

  lemma EnvironmentOutcome(s: string, longMax: LongMax, least: nat, before: int)
    ensures var r := Accept(s, longMax, least);
      FromEnvironment(Some(s), least, before, if r.Some? then r.value else before)
  {
    var r := Accept(s, longMax, least);
    if r.Some? {
      AcceptedIffSpelled(s, longMax, least, r.value);
    }
    forall v | least <= v <= INT_MAX && Spells(s, v)
      ensures r == Some(v)
    {
      AcceptedIffSpelled(s, longMax, least, v);
    }
  }

  /** A string spells one number at most. */
  lemma SpellsOne(s: string, v: int, w: int)
    requires Spells(s, v) && Spells(s, w)
    ensures v == w
  {
    var max: LongMax := INT_MAX + Magnitude(v) + Magnitude(w);
    var space, sign, digits :| SpellsAs(s, v, space, sign, digits);
    SpellingIsConverted(s, v, max, space, sign, digits);
    var space', sign', digits' :| SpellsAs(s, w, space', sign', digits');
    SpellingIsConverted(s, w, max, space', sign', digits');
  }

  const DURATION: string := "--duration="
  const CYCLES: string := "--cycles="

  predicate Begins(s: string, prefix: string) {
    prefix <= s
  }

  /** `args` has an argument with the prefix whose value is accepted as `v`, and
      none after it is accepted. */
  ghost predicate LastAccepted(args: seq<string>, prefix: string, longMax: LongMax, least: nat, v: int) {
    exists i: nat :: LastAcceptedAt(args, prefix, longMax, least, v, i)
  }

  predicate LastAcceptedAt(args: seq<string>, prefix: string, longMax: LongMax, least: nat, v: int, i: nat) {
    && i < |args|
    && SetsTo(args[i], prefix, longMax, least, v)
    && forall j | i < j < |args| :: Ignored(args[j], prefix, longMax, least)
  }

  predicate SetsTo(arg: string, prefix: string, longMax: LongMax, least: nat, v: int) {
    Begins(arg, prefix) && Accept(arg[|prefix|..], longMax, least) == Some(v)
  }

  predicate Ignored(arg: string, prefix: string, longMax: LongMax, least: nat) {
    Begins(arg, prefix) ==> Accept(arg[|prefix|..], longMax, least) == None
  }

  /** The value after the arguments: the last accepted setting, or the initial one. */
  ghost predicate Outcome(args: seq<string>, prefix: string, longMax: LongMax, least: nat, before: int, after: int) {
    || LastAccepted(args, prefix, longMax, least, after)
    || (after == before && forall j | 0 <= j < |args| :: Ignored(args[j], prefix, longMax, least))
  }

  lemma OutcomeSet(args: seq<string>, arg: string, prefix: string, longMax: LongMax, least: nat, before: int, v: int)
    requires SetsTo(arg, prefix, longMax, least, v)
    ensures Outcome(args + [arg], prefix, longMax, least, before, v)
  {
    assert (args + [arg])[|args|] == arg;
    assert LastAcceptedAt(args + [arg], prefix, longMax, least, v, |args|);
  }

  lemma OutcomeKept(args: seq<string>, arg: string, prefix: string, longMax: LongMax, least: nat, before: int, v: int)
    requires Outcome(args, prefix, longMax, least, before, v) && Ignored(arg, prefix, longMax, least)
    ensures Outcome(args + [arg], prefix, longMax, least, before, v)
  {
    var more := args + [arg];
    if LastAccepted(args, prefix, longMax, least, v) {
      var i: nat :| LastAcceptedAt(args, prefix, longMax, least, v, i);
      assert more[i] == args[i];
      assert LastAcceptedAt(more, prefix, longMax, least, v, i);
    }
  }

  /** No argument sets both parameters. */
  lemma PrefixesDiffer(arg: string)
    ensures !(Begins(arg, DURATION) && Begins(arg, CYCLES))
  {
    assert Begins(arg, DURATION) ==> |arg| > 2 && arg[2] == DURATION[2];
    assert Begins(arg, CYCLES) ==> |arg| > 2 && arg[2] == CYCLES[2];
  }

  class Parameters {
    var duration: int
    var cycles: int

    constructor (duration: int, cycles: int)
      ensures this.duration == duration && this.cycles == cycles
    {
      this.duration, this.cycles := duration, cycles;
    }

    /** Settings from the environment; None is a variable that is not set. */
    method ReportInit(durationEnv: Option<string>, cyclesEnv: Option<string>, longMax: LongMax)
      modifies this
      ensures FromEnvironment(durationEnv, 1, old(duration), duration)
      ensures FromEnvironment(cyclesEnv, 0, old(cycles), cycles)
      ensures 0 < old(duration) <= INT_MAX ==> 0 < duration <= INT_MAX
      ensures 0 <= old(cycles) <= INT_MAX ==> 0 <= cycles <= INT_MAX
    {
      if durationEnv.Some? {
        EnvironmentOutcome(durationEnv.value, longMax, 1, duration);
        var r := Strtol(durationEnv.value, longMax);
        if !r.erange && r.end != 0 && r.end == |durationEnv.value| && r.val > 0 && r.val <= INT_MAX {
          duration := r.val;
        }
      }
      if cyclesEnv.Some? {
        EnvironmentOutcome(cyclesEnv.value, longMax, 0, cycles);
        var r := Strtol(cyclesEnv.value, longMax);
        if !r.erange && r.end != 0 && r.end == |cyclesEnv.value| && r.val >= 0 && r.val <= INT_MAX {
          cycles := r.val;
        }
      }
    }

    /** Settings from the command line, of which the first word is the program. */
    method ReportInitArgv(argv: seq<string>, longMax: LongMax)
      modifies this
      ensures Outcome(Arguments(argv), "--duration=", longMax, 1, old(duration), duration)
      ensures Outcome(Arguments(argv), "--cycles=", longMax, 0, old(cycles), cycles)
    {
      var i := 1;
      ghost var seen: seq<string> := [];
      while i < |argv|
        invariant 1 <= i && seen == Seen(argv, i)
        invariant Outcome(seen, DURATION, longMax, 1, old(duration), duration)
        invariant Outcome(seen, CYCLES, longMax, 0, old(cycles), cycles)
      {
        SeenMore(argv, i);
        TakeArgument(seen, argv[i], longMax, old(duration), old(cycles));
        seen := seen + [argv[i]];
        i := i + 1;
      }
    }

    /** One turn of the loop; `seen` are the arguments before. */
    method TakeArgument(ghost seen: seq<string>, arg: string, longMax: LongMax, ghost d: int, ghost c: int)
      requires Outcome(seen, DURATION, longMax, 1, d, duration)
      requires Outcome(seen, CYCLES, longMax, 0, c, cycles)
      modifies this
      ensures Outcome(seen + [arg], DURATION, longMax, 1, d, duration)
      ensures Outcome(seen + [arg], CYCLES, longMax, 0, c, cycles)
    {
      PrefixesDiffer(arg);
      if Begins(arg, DURATION) {
        OutcomeKept(seen, arg, CYCLES, longMax, 0, c, cycles);
        var v := arg[|DURATION|..];
        var r := Strtol(v, longMax);
        if !r.erange && r.end != 0 && r.end == |v| && r.val > 0 && r.val <= INT_MAX {
          duration := r.val;
          OutcomeSet(seen, arg, DURATION, longMax, 1, d, duration);
        } else {
          OutcomeKept(seen, arg, DURATION, longMax, 1, d, duration);
        }
      } else if Begins(arg, CYCLES) {
        OutcomeKept(seen, arg, DURATION, longMax, 1, d, duration);
        var v := arg[|CYCLES|..];
        var r := Strtol(v, longMax);
        if !r.erange && r.end != 0 && r.end == |v| && r.val >= 0 && r.val <= INT_MAX {
          cycles := r.val;
          OutcomeSet(seen, arg, CYCLES, longMax, 0, c, cycles);
        } else {
          OutcomeKept(seen, arg, CYCLES, longMax, 0, c, cycles);
        }
      } else {
        OutcomeKept(seen, arg, DURATION, longMax, 1, d, duration);
        OutcomeKept(seen, arg, CYCLES, longMax, 0, c, cycles);
      }
    }
  }

  /** The words after the program's name. */
  function Arguments(argv: seq<string>): seq<string> {
    if argv == [] then [] else argv[1..]
  }

  /** Those of them before index `i`. */
  function Seen(argv: seq<string>, i: nat): seq<string>
    requires 1 <= i
  {
    if i < |argv| then argv[1..i] else Arguments(argv)
  }

  lemma SeenMore(argv: seq<string>, i: nat)
    requires 1 <= i < |argv|
    ensures Seen(argv, i + 1) == Seen(argv, i) + [argv[i]]
  {
  }

  /** The outcome is determined by the arguments. */
  lemma OutcomeIsUnique(args: seq<string>, prefix: string, longMax: LongMax, least: nat, before: int, v: int, w: int)
    requires Outcome(args, prefix, longMax, least, before, v)
    requires Outcome(args, prefix, longMax, least, before, w)
    ensures v == w
  {
    if LastAccepted(args, prefix, longMax, least, v) && LastAccepted(args, prefix, longMax, least, w) {
      var i: nat :| LastAcceptedAt(args, prefix, longMax, least, v, i);
      var k: nat :| LastAcceptedAt(args, prefix, longMax, least, w, k);
      if i < k { NotBeforeAnother(args, prefix, longMax, least, v, w, i, k); }
      if k < i { NotBeforeAnother(args, prefix, longMax, least, w, v, k, i); }
    }
  }

  lemma NotBeforeAnother(args: seq<string>, prefix: string, longMax: LongMax, least: nat, v: int, w: int, i: nat,
    k: nat)
    requires LastAcceptedAt(args, prefix, longMax, least, v, i) && i < k < |args|
    ensures !LastAcceptedAt(args, prefix, longMax, least, w, k)
  {
    assert Ignored(args[k], prefix, longMax, least);
  }

  /** A duration printed into an option sets the duration, whatever came before, and so
      do cycles. */
  lemma PrintedOptionSets(args: seq<string>, v: int, longMax: LongMax, before: int)
    requires 0 <= v <= INT_MAX
    ensures v > 0 ==> Outcome(args + ["--duration=" + Signed(v)], "--duration=", longMax, 1, before, v)
    ensures Outcome(args + ["--cycles=" + Signed(v)], "--cycles=", longMax, 0, before, v)
  {
    assert ("--duration=" + Signed(v))[|"--duration="|..] == Signed(v);
    assert ("--cycles=" + Signed(v))[|"--cycles="|..] == Signed(v);
    PrintedIsTakenBack(v, longMax, 1);
    PrintedIsTakenBack(v, longMax, 0);
    if v > 0 { OutcomeSet(args, "--duration=" + Signed(v), "--duration=", longMax, 1, before, v); }
    OutcomeSet(args, "--cycles=" + Signed(v), "--cycles=", longMax, 0, before, v);
  }
}
