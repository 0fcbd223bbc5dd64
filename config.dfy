/**
 * The numeric settings of config.js, computed from the process environment:
 * the worker count and the RTC port range.  `parseInt` is modelled as
 * ECMAScript defines it for an absent radix, on exact integers.
 */
module Config {

  /** A JavaScript number as `parseInt` can return it. */
  datatype Number = NaN | Num(value: int)

  /** `process.env`: variable names to their string values. */
  type Env = map<string, string>

  /** StrWhiteSpaceChar: WhiteSpace (TAB, VT, FF, ZWNBSP and every space
      separator) and LineTerminator (LF, CR, LS, PS). */
  predicate IsStrWhiteSpace(c: char) {
    var n := c as int;
    || n == 0x09 || n == 0x0A || n == 0x0B || n == 0x0C || n == 0x0D
    || n == 0x20 || n == 0xA0 || n == 0x1680 || 0x2000 <= n <= 0x200A
    || n == 0x2028 || n == 0x2029 || n == 0x202F || n == 0x205F
    || n == 0x3000 || n == 0xFEFF
  }

  /** The value of `c` as a digit in bases up to 36, or 36 if it is none. */
  function DigitValue(c: char): (d: nat)
    ensures d <= 36
  {
    if '0' <= c <= '9' then (c as int - '0' as int)
    else if 'a' <= c <= 'z' then (c as int - 'a' as int) + 10
    else if 'A' <= c <= 'Z' then (c as int - 'A' as int) + 10
    else 36
  }

  predicate IsDigit(c: char, radix: nat) {
    DigitValue(c) < radix
  }

  /** `s` without its leading white space. */
  function TrimStart(s: string): (r: string)
    ensures |r| <= |s| && r == s[|s| - |r|..]
    ensures r == [] || !IsStrWhiteSpace(r[0])
    ensures forall i :: 0 <= i < |s| - |r| ==> IsStrWhiteSpace(s[i])
  {
    if s != [] && IsStrWhiteSpace(s[0]) then TrimStart(s[1..]) else s
  }

  /** The longest prefix of `s` made of digits of base `radix`. */
  function DigitPrefix(s: string, radix: nat): (r: string)
    ensures |r| <= |s| && r == s[..|r|]
    ensures forall i :: 0 <= i < |r| ==> IsDigit(r[i], radix)
    ensures |r| < |s| ==> !IsDigit(s[|r|], radix)
  {
    if s != [] && IsDigit(s[0], radix) then [s[0]] + DigitPrefix(s[1..], radix) else []
  }

  /** The number a string of digits of base `radix` denotes. */
  function DigitsValue(ds: string, radix: nat): nat {
    if ds == [] then 0
    else DigitsValue(ds[..|ds| - 1], radix) * radix + DigitValue(ds[|ds| - 1])
  }

  /** What `parseInt` reads once white space and sign are gone: a `0x` or
      `0X` prefix selects base 16 (base 10 otherwise), then the longest run of
      digits is the magnitude; no digit at all gives NaN. */
  function ParseMagnitude(u: string): (r: Number)
    ensures r.Num? ==> r.value >= 0
  {
    var hex := |u| >= 2 && u[0] == '0' && (u[1] == 'x' || u[1] == 'X');
    var radix := if hex then 16 else 10;
    var digits := DigitPrefix(if hex then u[2..] else u, radix);
    if digits == [] then NaN else Num(DigitsValue(digits, radix))
  }

  function Negate(n: Number): Number {
    if n.NaN? then NaN else Num(0 - n.value)
  }

  /** `parseInt(s)` with no radix argument: skip white space, read an optional
      sign, then the magnitude.  The sign of a negative zero is lost, which no
      caller here can observe: `-0` and `0` are both falsy. */
  function ParseInt(s: string): Number {
    var t := TrimStart(s);
    if |t| > 0 && t[0] == '-' then Negate(ParseMagnitude(t[1..]))
    else if |t| > 0 && t[0] == '+' then ParseMagnitude(t[1..])
    else ParseMagnitude(t)
  }

  /** `parseInt(process.env[name])`; an unset variable is `undefined`, which
      `parseInt` reads as the string "undefined". */
  function EnvNumber(env: Env, name: string): Number {
    ParseInt(if name in env then env[name] else "undefined")
  }

  /** `n || d` for a number `n` and a non-zero default `d`: NaN and zero are
      falsy, so both give `d`. */
  function OrDefault(n: Number, d: int): (r: int)
    requires d != 0
    ensures r != 0
    ensures r == d <==> (n.NaN? || n.value == 0 || n.value == d)
    ensures n.Num? && n.value != 0 ==> r == n.value
  {
    if n.Num? && n.value != 0 then n.value else d
  }

  predicate IsAuto(env: Env) {
    "WORKER_COUNT" in env && env["WORKER_COUNT"] == "auto"
  }

  /** config.js:138-140, with `os.cpus().length` as `cpus`. */
  function WorkerCount(env: Env, cpus: nat): int {
    if IsAuto(env) then (if cpus / 2 > 1 then cpus / 2 else 1)
    else OrDefault(EnvNumber(env, "WORKER_COUNT"), 1)
  }

  /** config.js:10 */
  function RtcMinPort(env: Env): int {
    OrDefault(EnvNumber(env, "RTC_MIN_PORT"), 40000)
  }

  /** config.js:11 */
  function RtcMaxPort(env: Env): int {
    OrDefault(EnvNumber(env, "RTC_MAX_PORT"), 49999)
  }

  /** The settings the registry reads from the configuration. */
  datatype Settings = Settings(workerCount: int, rtcMinPort: int, rtcMaxPort: int)

  /** The settings: never zero workers, at least one with `auto`, a
      non-zero reading kept, and the port defaults for unset, unparseable or
      zero variables. */
  function Load(env: Env, cpus: nat): (s: Settings)
    ensures s.workerCount != 0
    ensures IsAuto(env) ==> s.workerCount >= 1
    ensures !IsAuto(env) && EnvNumber(env, "WORKER_COUNT").Num? && EnvNumber(env, "WORKER_COUNT").value != 0 ==>
      s.workerCount == EnvNumber(env, "WORKER_COUNT").value
    ensures EnvNumber(env, "RTC_MIN_PORT") in {NaN, Num(0)} ==> s.rtcMinPort == 40000
    ensures EnvNumber(env, "RTC_MAX_PORT") in {NaN, Num(0)} ==> s.rtcMaxPort == 49999
    ensures "RTC_MIN_PORT" !in env ==> s.rtcMinPort == 40000
    ensures "RTC_MAX_PORT" !in env ==> s.rtcMaxPort == 49999
  {
    WorkerCountBounds(env, cpus);
    RtcPortDefaults(env);
    Settings(WorkerCount(env, cpus), RtcMinPort(env), RtcMaxPort(env))
  }

  // ---------------------------------------------------------------------------
  // Decimal notation, the inverse `parseInt` is checked against.

  function DecimalDigit(d: nat): (c: char)
    requires d < 10
    ensures IsDigit(c, 10) && DigitValue(c) == d
  {
    ('0' as int + d) as char
  }

  /** The decimal notation of `n`, without leading zeros. */
  function Show(n: nat): (s: string)
    ensures |s| > 0
    ensures forall i :: 0 <= i < |s| ==> IsDigit(s[i], 10)
    ensures n > 0 ==> s[0] != '0'
  {
    if n < 10 then [DecimalDigit(n)] else Show(n / 10) + [DecimalDigit(n % 10)]
  }

  lemma {:induction false} ShowValue(n: nat)
    ensures DigitsValue(Show(n), 10) == n
  {
    if n >= 10 {
      var s := Show(n);
      assert s[..|s| - 1] == Show(n / 10);
      ShowValue(n / 10);
    }
  }

  lemma {:induction false} DigitPrefixOf(ds: string, rest: string, radix: nat)
    requires forall i :: 0 <= i < |ds| ==> IsDigit(ds[i], radix)
    requires rest == [] || !IsDigit(rest[0], radix)
    ensures DigitPrefix(ds + rest, radix) == ds
  {
    if ds != [] {
      assert (ds + rest)[1..] == ds[1..] + rest;
      DigitPrefixOf(ds[1..], rest, radix);
    }
  }

  lemma MagnitudeShow(n: nat, rest: string)
    requires rest == [] || !IsDigit(rest[0], 10)
    requires n == 0 ==> rest == [] || (rest[0] != 'x' && rest[0] != 'X')
    ensures ParseMagnitude(Show(n) + rest) == Num(n)
  {
    var s := Show(n);
    if |s + rest| >= 2 {
      assert (s + rest)[1] == if |s| >= 2 then s[1] else rest[0];
    }
    DigitPrefixOf(s, rest, 10);
    ShowValue(n);
  }

  /** `parseInt` reads back the decimal notation of every natural number,
      with or without a minus sign and whatever non-digit text follows it (for
      zero, text that does not turn "0" into a hexadecimal prefix). */
  lemma ParseShow(n: nat, rest: string)
    requires rest == [] || !IsDigit(rest[0], 10)
    requires n == 0 ==> rest == [] || (rest[0] != 'x' && rest[0] != 'X')
    ensures ParseInt(Show(n) + rest) == Num(n)
    ensures ParseInt("-" + (Show(n) + rest)) == Num(-(n as int))
  {
    MagnitudeShow(n, rest);
    ShowUntrimmed(n, rest);
    NegatedTrimmed(Show(n) + rest);
  }

  /** Decimal notation starts with a digit, so it is read without trimming
      or sign. */
  lemma ShowUntrimmed(n: nat, rest: string)
    ensures ParseInt(Show(n) + rest) == ParseMagnitude(Show(n) + rest)
  {
    var s := Show(n) + rest;
    assert s[0] == Show(n)[0];
    assert !IsStrWhiteSpace(s[0]);
    assert TrimStart(s) == s;
  }

  /** A minus sign in front negates what follows. */
  lemma NegatedTrimmed(s: string)
    ensures ParseInt("-" + s) == Negate(ParseMagnitude(s))
  {
    var m := "-" + s;
    assert !IsStrWhiteSpace(m[0]);
    assert TrimStart(m) == m;
    assert m[1..] == s;
  }

  /** A decimal WORKER_COUNT of at least one is taken as it is. */
  lemma WorkerCountDecimal(env: Env, cpus: nat, n: nat, rest: string)
    requires n >= 1 && (rest == [] || !IsDigit(rest[0], 10))
    requires "WORKER_COUNT" in env && env["WORKER_COUNT"] == Show(n) + rest
    ensures WorkerCount(env, cpus) == n
  {
    ParseShow(n, rest);
    var text := Show(n) + rest;
    assert text[0] == Show(n)[0] && IsDigit(text[0], 10);
    assert !IsDigit("auto"[0], 10);
    assert !IsAuto(env);
    assert EnvNumber(env, "WORKER_COUNT") == Num(n);
  }

  /** The worker count is never zero, and it is at least one unless
      WORKER_COUNT is set to text that `parseInt` reads as a negative number. */
  lemma WorkerCountBounds(env: Env, cpus: nat)
    ensures WorkerCount(env, cpus) != 0
    ensures IsAuto(env) ==> WorkerCount(env, cpus) == (if cpus / 2 > 1 then cpus / 2 else 1)
    ensures WorkerCount(env, cpus) < 1 ==>
      !IsAuto(env) && EnvNumber(env, "WORKER_COUNT") == Num(WorkerCount(env, cpus))
    ensures !IsAuto(env) && EnvNumber(env, "WORKER_COUNT").Num? && EnvNumber(env, "WORKER_COUNT").value != 0 ==>
      WorkerCount(env, cpus) == EnvNumber(env, "WORKER_COUNT").value
  {
  }

  /** `parseInt(undefined)` is NaN. */
  lemma UndefinedIsNaN()
    ensures ParseInt("undefined") == NaN
  {
    assert !IsStrWhiteSpace('u') && !IsDigit('u', 10);
    assert TrimStart("undefined") == "undefined";
  }

  /** An unset, unparseable or zero WORKER_COUNT gives one worker. */
  lemma WorkerCountDefault(env: Env, cpus: nat)
    requires !IsAuto(env)
    ensures EnvNumber(env, "WORKER_COUNT") == NaN ==> WorkerCount(env, cpus) == 1
    ensures EnvNumber(env, "WORKER_COUNT") == Num(0) ==> WorkerCount(env, cpus) == 1
    ensures "WORKER_COUNT" !in env ==> WorkerCount(env, cpus) == 1
  {
    UndefinedIsNaN();
  }

  /** RTC_MIN_PORT and RTC_MAX_PORT default to 40000 and 49999 when unset,
      unparseable or zero, and otherwise keep the number `parseInt` reads. */
  lemma RtcPortDefaults(env: Env)
    ensures "RTC_MIN_PORT" !in env ==> RtcMinPort(env) == 40000
    ensures "RTC_MAX_PORT" !in env ==> RtcMaxPort(env) == 49999
    ensures EnvNumber(env, "RTC_MIN_PORT") in {NaN, Num(0)} ==> RtcMinPort(env) == 40000
    ensures EnvNumber(env, "RTC_MAX_PORT") in {NaN, Num(0)} ==> RtcMaxPort(env) == 49999
    ensures (forall v :: EnvNumber(env, "RTC_MIN_PORT") == Num(v) && v != 0 ==> RtcMinPort(env) == v)
    ensures (forall v :: EnvNumber(env, "RTC_MAX_PORT") == Num(v) && v != 0 ==> RtcMaxPort(env) == v)
  {
    UndefinedIsNaN();
  }

  /** Concrete readings of `parseInt`: leading white space, trailing text and
      a sign. */
  lemma ParseIntSpacesExample()
    ensures ParseInt("  42px") == Num(42)
  {
    TrimSpacesExample();
    assert "42px"[0] != '-' && "42px"[0] != '+';
    assert "42px"[1] != 'x' && "42px"[1] != 'X';
    DigitsExample();
  }

  lemma TrimSpacesExample()
    ensures TrimStart("  42px") == "42px"
  {
    assert IsStrWhiteSpace(' ') && !IsStrWhiteSpace('4');
    assert TrimStart("42px") == "42px";
    assert " 42px"[1..] == "42px";
    assert TrimStart(" 42px") == "42px";
    assert "  42px"[1..] == " 42px";
  }

  lemma DigitsExample()
    ensures DigitPrefix("42px", 10) == "42"
    ensures DigitsValue("42", 10) == 42
  {
    assert "42px"[1..] == "2px" && "2px"[1..] == "px";
    assert DigitPrefix("px", 10) == "";
    assert DigitPrefix("2px", 10) == "2";
    assert "42"[..1] == "4" && "4"[..0] == "";
  }

  lemma ParseIntMinusExample()
    ensures ParseInt("-7") == Num(-7)
  {
    assert !IsStrWhiteSpace('-');
    assert TrimStart("-7") == "-7";
    assert "-7"[1..] == "7";
    assert "7"[1..] == "" && "7"[..0] == "";
    assert DigitPrefix("7", 10) == "7";
    assert DigitsValue("7", 10) == 7;
    assert ParseMagnitude("7") == Num(7);
  }

  lemma ParseIntFractionExample()
    ensures ParseInt("2.5") == Num(2)
  {
    assert !IsStrWhiteSpace('2');
    assert TrimStart("2.5") == "2.5";
    assert "2.5"[1..] == ".5";
    assert DigitPrefix(".5", 10) == "";
    assert DigitPrefix("2.5", 10) == "2";
    assert "2"[..0] == "";
    assert DigitsValue("2", 10) == 2;
    assert ParseMagnitude("2.5") == Num(2);
  }

  lemma ParseIntNaNExample()
    ensures ParseInt("auto") == NaN
  {
    assert !IsStrWhiteSpace('a') && !IsDigit('a', 10);
    assert TrimStart("auto") == "auto";
  }

  /** A `0x` prefix reads the digits after it in base 16. */
  lemma ParseIntHexExample()
    ensures ParseInt("0x1F") == Num(31)
  {
    assert TrimStart("0x1F") == "0x1F";
    assert "0x1F"[2..] == "1F";
    assert "1F"[1..] == "F" && "F"[1..] == "";
    assert DigitPrefix("F", 16) == "F";
    assert DigitPrefix("1F", 16) == "1F";
    assert "1F"[..1] == "1" && "1"[..0] == "";
    assert DigitsValue("1F", 16) == 31;
  }
}
