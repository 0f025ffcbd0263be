/** Pool queries and unique ids as text: printing, parsing, and what parsing makes of
    numbers that do not fit. */
module PoolQueryText {
  import opened PoolQueries

  const U64: int := 0x1_0000_0000_0000_0000

  datatype Error = NoNumber | TooLarge | BadFormat

  datatype Result<+T> = Ok(value: T) | Err(error: Error)

  datatype Option<+T> = None | Some(value: T)

  // ----- std::to_string and std::stoul -----

  predicate IsDigit(c: char) { '0' <= c <= '9' }

  function Digit(d: nat): (c: char)
    requires d < 10
    ensures IsDigit(c)
  {
    '0' + d as char
  }

  function DigitValue(c: char): nat
    requires IsDigit(c)
  {
    c as int - '0' as int
  }

  function Decimal(n: nat): (s: string)
    ensures s != [] && forall i :: 0 <= i < |s| ==> IsDigit(s[i])
  {
    if n < 10 then [Digit(n)] else Decimal(n / 10) + [Digit(n % 10)]
  }

  function Number(digits: string): nat
    requires forall i :: 0 <= i < |digits| ==> IsDigit(digits[i])
  {
    if digits == [] then 0
    else 10 * Number(digits[..|digits| - 1]) + DigitValue(digits[|digits| - 1])
  }

  predicate IsSpace(c: char) { c == ' ' || '\t' <= c <= '\r' }

  function SkipSpaces(s: string): string {
    if s != [] && IsSpace(s[0]) then SkipSpaces(s[1..]) else s
  }

  /** The longest prefix of digits. */
  function Digits(s: string): (d: string)
    ensures d <= s && forall i :: 0 <= i < |d| ==> IsDigit(d[i])
    ensures |d| < |s| ==> !IsDigit(s[|d|])
  {
    if s == [] || !IsDigit(s[0]) then [] else [s[0]] + Digits(s[1..])
  }

  /** Spaces, a sign, digits; whatever follows is ignored, and a minus wraps around. */
  function Stoul(s: string): (r: Result<nat>)
    ensures r.Ok? ==> r.value < U64
  {
    var t := SkipSpaces(s);
    var minus := t != [] && t[0] == '-';
    var u := if t != [] && (t[0] == '-' || t[0] == '+') then t[1..] else t;
    var d := Digits(u);
    if d == [] then Err(NoNumber)
    else if Number(d) >= U64 then Err(TooLarge)
    else Ok(if minus then (U64 - Number(d)) % U64 else Number(d))
  }

  /** stoul assigned to a u32. */
  function Stou32(s: string): Result<u32> {
    match Stoul(s)
    case Ok(n) => Ok(n % U32)
    case Err(e) => Err(e)
  }

  lemma {:induction false} NumberOfDecimal(n: nat)
    ensures Number(Decimal(n)) == n
  {
    if n >= 10 {
      NumberOfDecimal(n / 10);
      assert Decimal(n)[..|Decimal(n)| - 1] == Decimal(n / 10);
    }
  }

  /** Ten digits, and each place is worth ten of the next. */
  lemma TenToAPlace(n: nat, d: nat)
    requires d < 10
    ensures Decimal(d) == ["0123456789"[d]]
    ensures n > 0 ==> Decimal(10 * n + d) == Decimal(n) + ["0123456789"[d]]
  {
    assert n > 0 ==> (10 * n + d) / 10 == n && (10 * n + d) % 10 == d;
  }

  lemma {:induction false} DigitsStop(d: string, rest: string)
    requires (forall i :: 0 <= i < |d| ==> IsDigit(d[i])) && (rest == [] || !IsDigit(rest[0]))
    ensures Digits(d + rest) == d
  {
    if d == [] {
      assert d + rest == rest;
    } else {
      assert (d + rest)[1..] == d[1..] + rest;
      DigitsStop(d[1..], rest);
    }
  }

  lemma StoulOfDecimal(n: nat)
    ensures Stoul(Decimal(n)) == if n < U64 then Ok(n) else Err(TooLarge)
  {
    var d := Decimal(n);
    DigitsStop(d, []);
    assert d + [] == d && IsDigit(d[0]);
    NumberOfDecimal(n);
  }

  // ----- PoolQuery -----

  function ToString(q: PoolQuery): string {
    match q
    case Local => "local"
    case Broadcast => "broadcast"
    case Dynamic => "dynamic"
    case DirectId(c) => "direct_id:" + Decimal(c)
    case DirectHash(h) => "direct_hash:" + Decimal(h)
    case Range(offset, count) => "range:" + Decimal(offset) + ":" + Decimal(count)
    case Physical(n) => "physical:" + Decimal(n)
  }

  function LowerChar(c: char): char { if 'A' <= c <= 'Z' then c - 'A' + 'a' else c }

  function Lower(s: string): (t: string)
    ensures |t| == |s| && forall i :: 0 <= i < |s| ==> t[i] == LowerChar(s[i])
  {
    seq(|s|, i requires 0 <= i < |s| => LowerChar(s[i]))
  }

  /** The first `c` in `s` at or after `from`. */
  function Find(s: string, c: char, from: nat): (r: Option<nat>)
    ensures r.Some? ==> from <= r.value < |s| && s[r.value] == c && forall i :: from <= i < r.value ==> s[i] != c
    ensures r.None? ==> forall i :: from <= i < |s| ==> s[i] != c
    decreases |s| - from
  {
    if from >= |s| then None else if s[from] == c then Some(from) else Find(s, c, from + 1)
  }

  function FromString(str: string): Result<PoolQuery> {
    var s := Lower(str);
    if s == "local" then Ok(Local)
    else if s == "broadcast" then Ok(Broadcast)
    else if s == "dynamic" then Ok(Dynamic)
    else if "direct_id:" <= s then
      match Stou32(s[10..]) { case Ok(n) => Ok(DirectId(n)) case Err(e) => Err(e) }
    else if "direct_hash:" <= s then
      match Stou32(s[12..]) { case Ok(n) => Ok(DirectHash(n)) case Err(e) => Err(e) }
    else if "range:" <= s then RangeFromString(s)
    else if "physical:" <= s then
      match Stou32(s[9..]) { case Ok(n) => Ok(Physical(n)) case Err(e) => Err(e) }
    else Err(BadFormat)
  }

  function RangeFromString(s: string): Result<PoolQuery>
    requires "range:" <= s
  {
    var colon := Find(s, ':', 6);
    if colon.None? then Err(BadFormat)
    else
      match Stou32(s[6..colon.value])
      case Err(e) => Err(e)
      case Ok(offset) =>
        match Stou32(s[colon.value + 1..])
        case Err(e) => Err(e)
        case Ok(count) => Ok(Range(offset, count))
  }

  lemma LowerKeeps(s: string)
    requires forall i :: 0 <= i < |s| ==> !('A' <= s[i] <= 'Z')
    ensures Lower(s) == s
  {}

  lemma SplitAt(prefix: string, d: string)
    ensures (prefix + d)[|prefix|..] == d && prefix <= prefix + d
  {}

  lemma NumbersAreLower(prefix: string, d: string)
    requires (forall i :: 0 <= i < |prefix| ==> !('A' <= prefix[i] <= 'Z')) && (forall i :: 0 <= i < |d| ==> IsDigit(d[i]))
    ensures Lower(prefix + d) == prefix + d
  {
    LowerKeeps(prefix + d);
  }

  /** Text with one number, which need not fit. */
  lemma NumberedText(prefix: string, n: nat)
    requires prefix == "direct_id:" || prefix == "direct_hash:" || prefix == "physical:"
    ensures var s := prefix + Decimal(n);
            var q := if prefix == "direct_id:" then DirectId(n % U32)
                     else if prefix == "direct_hash:" then DirectHash(n % U32) else Physical(n % U32);
            FromString(s) == if n < U64 then Ok(q) else Err(TooLarge)
  {
    hide Decimal, Stoul, Lower, RangeFromString;
    var s := prefix + Decimal(n);
    NumbersAreLower(prefix, Decimal(n));
    SplitAt(prefix, Decimal(n));
    StoulOfDecimal(n);
    assert s[0] == prefix[0] && s[1] == prefix[1] && s[7] == prefix[7];
  }

  lemma FindsFirst(s: string, c: char, from: nat, k: nat)
    requires from <= k < |s| && s[k] == c && forall i :: from <= i < k ==> s[i] != c
    ensures Find(s, c, from) == Some(k)
  {
    hide Find;
    var r := Find(s, c, from);
    assert r.Some? && s[r.value] == c;
  }

  lemma RangeText(offset: nat, count: nat)
    ensures FromString("range:" + Decimal(offset) + ":" + Decimal(count)) ==
            if offset < U64 && count < U64 then Ok(Range(offset % U32, count % U32)) else Err(TooLarge)
  {
    hide Decimal, Stoul, Lower, Find;
    var a, b := Decimal(offset), Decimal(count);
    var s := "range:" + a + ":" + b;
    RangeParts(a, b);
    StoulOfDecimal(offset);
    StoulOfDecimal(count);
    assert s[0] == 'r';
  }

  lemma RangeParts(a: string, b: string)
    requires (forall i :: 0 <= i < |a| ==> IsDigit(a[i])) && (forall i :: 0 <= i < |b| ==> IsDigit(b[i]))
    ensures var s := "range:" + a + ":" + b;
            && Lower(s) == s && "range:" <= s
            && Find(s, ':', 6) == Some(6 + |a|) && s[6..6 + |a|] == a && s[6 + |a| + 1..] == b
  {
    hide Find, Lower;
    var s := "range:" + a + ":" + b;
    var k := 6 + |a|;
    forall i | 0 <= i < |s| ensures !('A' <= s[i] <= 'Z') {
      if 6 <= i < k { assert s[i] == a[i - 6]; } else if k < i { assert s[i] == b[i - k - 1]; }
    }
    LowerKeeps(s);
    forall i | 6 <= i < k ensures s[i] != ':' { assert s[i] == a[i - 6]; }
    FindsFirst(s, ':', 6, k);
  }

  lemma PlainText(q: PoolQuery)
    requires q.Local? || q.Broadcast? || q.Dynamic?
    ensures FromString(ToString(q)) == Ok(q)
  {
    hide Decimal, Stoul, RangeFromString;
    LowerKeeps(ToString(q));
    assert "broadcast"[0] != "local"[0] && "dynamic"[0] != "local"[0] && "dynamic"[0] != "broadcast"[0];
  }

  /** Every query survives printing and parsing. */
  lemma RoundTrip(q: PoolQuery)
    ensures FromString(ToString(q)) == Ok(q)
  {
    hide FromString, Decimal;
    match q
    case Local => PlainText(q);
    case Broadcast => PlainText(q);
    case Dynamic => PlainText(q);
    case DirectId(c) => NumberedText("direct_id:", c);
    case DirectHash(h) => NumberedText("direct_hash:", h);
    case Range(offset, count) => RangeText(offset, count);
    case Physical(n) => NumberedText("physical:", n);
  }

  /** So no two queries print alike. */
  lemma ToStringInjective(p: PoolQuery, q: PoolQuery)
    requires ToString(p) == ToString(q)
    ensures p == q
  {
    hide FromString, ToString;
    RoundTrip(p);
    RoundTrip(q);
  }

  // ----- what else is accepted -----

  /** Equal but for the case of letters. */
  predicate SameLetters(s: string, t: string) {
    |s| == |t| && forall i :: 0 <= i < |s| ==>
      s[i] == t[i] || ('A' <= s[i] <= 'Z' && t[i] as int == s[i] as int + 32) || ('A' <= t[i] <= 'Z' && s[i] as int == t[i] as int + 32)
  }

  lemma LowerIff(s: string, t: string)
    ensures SameLetters(s, t) <==> Lower(s) == Lower(t)
  {
    if Lower(s) == Lower(t) {
      forall i | 0 <= i < |s|
        ensures s[i] == t[i] || ('A' <= s[i] <= 'Z' && t[i] as int == s[i] as int + 32) || ('A' <= t[i] <= 'Z' && s[i] as int == t[i] as int + 32)
      {
        assert Lower(s)[i] == Lower(t)[i];
      }
    }
    if SameLetters(s, t) {
      assert forall i :: 0 <= i < |s| ==> Lower(s)[i] == Lower(t)[i];
      assert Lower(s) == Lower(t);
    }
  }

  /** The case of letters does not matter. */
  lemma CaseIrrelevant(s: string, t: string)
    requires SameLetters(s, t)
    ensures FromString(s) == FromString(t)
  {
    hide Lower, SameLetters, Stoul, RangeFromString;
    LowerIff(s, t);
  }

  predicate StartsWith(s: string, prefix: string) { |prefix| <= |s| && SameLetters(s[..|prefix|], prefix) }

  lemma PrefixIff(s: string, prefix: string)
    requires Lower(prefix) == prefix
    ensures prefix <= Lower(s) <==> StartsWith(s, prefix)
  {
    if |prefix| <= |s| {
      LowerIff(s[..|prefix|], prefix);
      assert Lower(s)[..|prefix|] == Lower(s[..|prefix|]);
    }
  }

  /** A text without a number is one of three words; every other has to start with the name of
      a mode that takes one, and gives that mode or an error. */
  lemma TextDecidesMode(s: string)
    ensures FromString(s) == Ok(Local) <==> SameLetters(s, "local")
    ensures FromString(s) == Ok(Broadcast) <==> SameLetters(s, "broadcast")
    ensures FromString(s) == Ok(Dynamic) <==> SameLetters(s, "dynamic")
    ensures var r := FromString(s);
            && (r.Ok? && r.value.DirectId? ==> StartsWith(s, "direct_id:"))
            && (r.Ok? && r.value.DirectHash? ==> StartsWith(s, "direct_hash:"))
            && (r.Ok? && r.value.Range? ==> StartsWith(s, "range:"))
            && (r.Ok? && r.value.Physical? ==> StartsWith(s, "physical:"))
            && (r == Err(BadFormat) || r.Ok? || StartsWith(s, "direct_id:") || StartsWith(s, "direct_hash:")
                || StartsWith(s, "range:") || StartsWith(s, "physical:"))
  {
    hide Lower, SameLetters, Stoul, StartsWith, Find;
    Words();
    LowerIff(s, "local");
    LowerIff(s, "broadcast");
    LowerIff(s, "dynamic");
    PrefixIff(s, "direct_id:");
    PrefixIff(s, "direct_hash:");
    PrefixIff(s, "range:");
    PrefixIff(s, "physical:");
  }

  lemma Words()
    ensures Lower("local") == "local" && Lower("broadcast") == "broadcast" && Lower("dynamic") == "dynamic"
    ensures Lower("direct_id:") == "direct_id:" && Lower("direct_hash:") == "direct_hash:"
    ensures Lower("range:") == "range:" && Lower("physical:") == "physical:"
    ensures "local" != "broadcast" && "local" != "dynamic" && "broadcast" != "dynamic"
  {
    LowerKeeps("local");
    LowerKeeps("broadcast");
    LowerKeeps("dynamic");
    LowerKeeps("direct_id:");
    LowerKeeps("direct_hash:");
    LowerKeeps("range:");
    LowerKeeps("physical:");
    assert "broadcast"[0] != "local"[0] && "dynamic"[0] != "local"[0] && "dynamic"[0] != "broadcast"[0];
  }

  predicate AllDigits(s: string) { forall i :: 0 <= i < |s| ==> IsDigit(s[i]) }

  /** A number may stand behind spaces and a sign and before anything but a digit; a minus
      takes it from 2^64. */
  lemma NumberIsRead(spaces: string, sign: string, digits: string, rest: string)
    requires (forall i :: 0 <= i < |spaces| ==> IsSpace(spaces[i])) && (sign == "" || sign == "+" || sign == "-")
    requires digits != [] && AllDigits(digits) && (rest == [] || !IsDigit(rest[0]))
    ensures Stoul(spaces + sign + digits + rest) ==
            if Number(digits) >= U64 then Err(TooLarge)
            else if sign == "-" && Number(digits) > 0 then Ok(U64 - Number(digits))
            else Ok(Number(digits))
  {
    hide Number, SkipSpaces, Digits;
    var t := sign + digits + rest;
    assert spaces + sign + digits + rest == spaces + t;
    SignStands(sign, digits, rest);
    SpacesSkipped(spaces, t);
    DigitsStop(digits, rest);
  }

  lemma SignStands(sign: string, digits: string, rest: string)
    requires digits != [] && AllDigits(digits) && (sign == "" || sign == "+" || sign == "-")
    ensures var t := sign + digits + rest;
            && t != [] && !IsSpace(t[0]) && (t[0] == '-' <==> sign == "-") && (t[0] == '+' <==> sign == "+")
            && (if sign == "" then t else t[1..]) == digits + rest
  {
    var t := sign + digits + rest;
    assert t[0] == if sign == "" then digits[0] else sign[0];
  }

  lemma {:induction false} SpacesSkipped(spaces: string, t: string)
    requires (forall i :: 0 <= i < |spaces| ==> IsSpace(spaces[i])) && (t == [] || !IsSpace(t[0]))
    ensures SkipSpaces(spaces + t) == t
  {
    if spaces == [] {
      assert spaces + t == t;
    } else {
      assert (spaces + t)[1..] == spaces[1..] + t;
      SpacesSkipped(spaces[1..], t);
    }
  }

  /** Where there is no digit behind them, nothing is read. */
  lemma NothingIsRead(spaces: string, sign: string, rest: string)
    requires (forall i :: 0 <= i < |spaces| ==> IsSpace(spaces[i])) && (sign == "+" || sign == "-")
    requires rest == [] || !IsDigit(rest[0])
    ensures Stoul(spaces + sign + rest) == Err(NoNumber)
  {
    var t := sign + rest;
    assert spaces + sign + rest == spaces + t;
    SpacesSkipped(spaces, t);
    assert t[1..] == rest;
    assert Digits(rest) == [];
  }

  /** So negative ids and trailing text are accepted by every mode that takes a number. */
  lemma SignedText(prefix: string, spaces: string, sign: string, digits: string, rest: string)
    requires prefix == "direct_id:" || prefix == "direct_hash:" || prefix == "physical:"
    requires (forall i :: 0 <= i < |spaces| ==> IsSpace(spaces[i])) && (sign == "" || sign == "+" || sign == "-")
    requires digits != [] && AllDigits(digits) && (rest == [] || !IsDigit(rest[0])) && Lower(rest) == rest
    ensures var n := if sign == "-" then 0 - Number(digits) else Number(digits);
            FromString(prefix + (spaces + sign + digits + rest)) ==
            if Number(digits) >= U64 then Err(TooLarge)
            else if prefix == "direct_id:" then Ok(DirectId(n % U32))
            else if prefix == "direct_hash:" then Ok(DirectHash(n % U32)) else Ok(Physical(n % U32))
  {
    hide Stoul, RangeFromString, Lower, Number;
    var number := spaces + sign + digits + rest;
    var s := prefix + number;
    TextIsLower(prefix, spaces, sign, digits, rest);
    SplitAt(prefix, number);
    NumberIsRead(spaces, sign, digits, rest);
    WrapsTwice(Number(digits));
    assert s[0] == prefix[0] && s[1] == prefix[1] && s[7] == prefix[7];
  }

  lemma WrapsTwice(n: nat)
    ensures (U64 - n) % U32 == (0 - n) % U32
  {
    assert U64 == U32 * U32;
  }

  lemma TextIsLower(prefix: string, spaces: string, sign: string, digits: string, rest: string)
    requires prefix == "direct_id:" || prefix == "direct_hash:" || prefix == "physical:"
    requires (forall i :: 0 <= i < |spaces| ==> IsSpace(spaces[i])) && (sign == "" || sign == "+" || sign == "-")
    requires AllDigits(digits) && Lower(rest) == rest
    ensures var s := prefix + (spaces + sign + digits + rest); Lower(s) == s
  {
    LowerJoins(spaces + sign + digits, rest);
    LowerJoins(spaces + sign, digits);
    LowerJoins(spaces, sign);
    LowerJoins(prefix, spaces + sign + digits + rest);
    LowerKeeps(prefix);
    LowerKeeps(spaces);
    LowerKeeps(sign);
    LowerKeeps(digits);
  }

  lemma LowerJoins(a: string, b: string)
    ensures Lower(a + b) == Lower(a) + Lower(b)
  {}

  // ----- with the network timeout -----

  /** A query as the factories build it; the timeout is in seconds, -1 for the default. */
  datatype TimedQuery = TimedQuery(query: PoolQuery, netTimeout: real)

  const DEFAULT_TIMEOUT := -1.0

  function TimedToString(t: TimedQuery): string { ToString(t.query) }

  function TimedFromString(s: string): Result<TimedQuery> {
    var r := FromString(s);
    if r.Ok? then Ok(TimedQuery(r.value, DEFAULT_TIMEOUT)) else Err(r.error)
  }

  /** The text has no room for the timeout: a query survives printing and parsing exactly
      when it has the default one, and two print alike exactly when they differ at most in
      it. */
  lemma TimedRoundTripIff(p: TimedQuery, q: TimedQuery)
    ensures TimedFromString(TimedToString(p)) == Ok(p) <==> p.netTimeout == DEFAULT_TIMEOUT
    ensures TimedToString(p) == TimedToString(q) <==> p.query == q.query
  {
    hide FromString, ToString;
    RoundTrip(p.query);
    RoundTrip(q.query);
  }

  /** A container id written in decimal is read back exactly when it fits in 32 bits; up to
      2^64 it is silently truncated, and only beyond is it an error. */
  lemma IdTextIsExactIff(n: nat)
    ensures FromString("direct_id:" + Decimal(n)) == (if n < U64 then Ok(DirectId(n % U32)) else Err(TooLarge))
    ensures (n < U64 && FromString("direct_id:" + Decimal(n)).value.container == n) <==> n < U32
  {
    hide FromString, Decimal;
    NumberedText("direct_id:", n);
  }

  // ----- UniqueId -----

  datatype UniqueId = UniqueId(major: u32, minor: u32)

  function IdToString(id: UniqueId): string { Decimal(id.major) + "." + Decimal(id.minor) }

  /** Any failure of stoul becomes a format error. */
  function IdFromString(s: string): Result<UniqueId> {
    var dot := Find(s, '.', 0);
    if dot.None? then Err(BadFormat)
    else
      match (Stou32(s[..dot.value]), Stou32(s[dot.value + 1..]))
      case (Ok(major), Ok(minor)) => Ok(UniqueId(major, minor))
      case _ => Err(BadFormat)
  }

  lemma IdRoundTrip(id: UniqueId)
    ensures IdFromString(IdToString(id)) == Ok(id)
  {
    hide Decimal, Stoul, Find;
    var a, b := Decimal(id.major), Decimal(id.minor);
    var s := a + "." + b;
    assert s[..|a|] == a && s[|a| + 1..] == b;
    forall i | 0 <= i < |a| ensures s[i] != '.' { assert s[i] == a[i]; }
    FindsFirst(s, '.', 0, |a|);
    StoulOfDecimal(id.major);
    StoulOfDecimal(id.minor);
  }

  /** An id written with numbers of any size is read modulo 2^32, or not at all from 2^64 on. */
  lemma IdText(major: nat, minor: nat)
    ensures IdFromString(Decimal(major) + "." + Decimal(minor)) ==
            if major < U64 && minor < U64 then Ok(UniqueId(major % U32, minor % U32)) else Err(BadFormat)
  {
    hide Decimal, Stoul, Find;
    var a, b := Decimal(major), Decimal(minor);
    var s := a + "." + b;
    assert s[..|a|] == a && s[|a| + 1..] == b;
    forall i | 0 <= i < |a| ensures s[i] != '.' { assert s[i] == a[i]; }
    FindsFirst(s, '.', 0, |a|);
    StoulOfDecimal(major);
    StoulOfDecimal(minor);
  }

  lemma IdToStringInjective(a: UniqueId, b: UniqueId)
    requires IdToString(a) == IdToString(b)
    ensures a == b
  {
    hide IdFromString, IdToString;
    IdRoundTrip(a);
    IdRoundTrip(b);
  }
}
