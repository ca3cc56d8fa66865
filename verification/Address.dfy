/** Target addresses: the [user@]host[:port] language, its parser and its printer. */
module Address {
  import opened Text

  datatype Target = Target(user: string, host: string, port: string)

  datatype AddressError =
    | InvalidFormat
    | OuterSpace
    | UnsafeCharacters
    | InvalidUser
    | InvalidHost
    | InvalidPort
    | InvalidSessionUser

  // ---------------------------------------------------------------- net.ParseIP

  predicate IsHexDigit(c: char) { '0' <= c <= '9' || 'a' <= c <= 'f' || 'A' <= c <= 'F' }

  function HexRun(s: string): (n: nat)
    ensures n <= |s|
    ensures forall i | 0 <= i < n :: IsHexDigit(s[i])
    ensures n < |s| ==> !IsHexDigit(s[n])
  {
    if s != "" && IsHexDigit(s[0]) then 1 + HexRun(s[1..]) else 0
  }

  /** Four decimal octets without leading zeros; `field` of them are done, the current one has
      `len` digits and value `val`. */
  predicate IPv4From(s: string, field: nat, val: nat, len: nat) {
    if s == "" then field == 3 && len > 0
    else if IsAsciiDigit(s[0]) then
      var v := val * 10 + DigitValue(s[0]);
      !(len == 1 && val == 0) && v <= 255 && IPv4From(s[1..], field, v, len + 1)
    else
      s[0] == '.' && len > 0 && field < 3 && IPv4From(s[1..], field + 1, 0, 0)
  }

  /** Every one of the 16 bytes is written, by the text or by exactly one "::" that stands for at
      least one group. */
  predicate IPv6Complete(bytes: nat, ellipsis: bool) { if bytes < 16 then ellipsis else !ellipsis }

  /** The IPv6 text form (section 2.2 of RFC 4291) after `bytes` bytes; `ellipsis` when "::" was seen. */
  predicate IPv6From(s: string, bytes: nat, ellipsis: bool) {
    var n := HexRun(s);
    if n == 0 || n > 4 || bytes >= 16 then false
    else if n < |s| && s[n] == '.' then
      (ellipsis || bytes == 12) && bytes + 4 <= 16 && IPv4From(s, 0, 0, 0) && IPv6Complete(bytes + 4, ellipsis)
    else if n == |s| then IPv6Complete(bytes + 2, ellipsis)
    else if s[n] != ':' || n + 1 == |s| then false
    else if s[n + 1] != ':' then IPv6From(s[n + 1..], bytes + 2, ellipsis)
    else if ellipsis then false
    else if n + 2 == |s| then IPv6Complete(bytes + 2, true)
    else IPv6From(s[n + 2..], bytes + 2, true)
  }

  predicate IsIPv6(s: string) {
    if |s| >= 2 && s[0] == ':' && s[1] == ':'
    then |s| == 2 || IPv6From(s[2..], 0, true)
    else IPv6From(s, 0, false)
  }

  /** net.ParseIP succeeds: the first '.' or ':' picks the family, and zones are refused. */
  predicate ParsesAsIP(s: string) {
    var dot, colon := Index(s, '.'), Index(s, ':');
    && '%' !in s
    && if colon < 0 then dot >= 0 && IPv4From(s, 0, 0, 0)
       else if 0 <= dot < colon then IPv4From(s, 0, 0, 0)
       else IsIPv6(s)
  }

  predicate IsIPChar(c: char) { IsHexDigit(c) || c == '.' || c == ':' }

  lemma {:induction false} IPv4Chars(s: string, field: nat, val: nat, len: nat)
    requires IPv4From(s, field, val, len)
    ensures forall c | c in s :: IsAsciiDigit(c) || c == '.'
  {
    if s != "" {
      if IsAsciiDigit(s[0]) {
        IPv4Chars(s[1..], field, val * 10 + DigitValue(s[0]), len + 1);
      } else {
        IPv4Chars(s[1..], field + 1, 0, 0);
      }
    }
  }

  /** Where an IPv6 text goes on after its first group: past ':' or past '::'. */
  function IPv6Next(s: string): nat
    requires HexRun(s) + 1 < |s|
  {
    if s[HexRun(s) + 1] == ':' then HexRun(s) + 2 else HexRun(s) + 1
  }

  lemma {:induction false} IPv6Chars(s: string, bytes: nat, ellipsis: bool)
    requires IPv6From(s, bytes, ellipsis)
    ensures forall c | c in s :: IsIPChar(c)
  {
    var n := HexRun(s);
    if n < |s| && s[n] == '.' {
      IPv4Chars(s, 0, 0, 0);
    } else if n < |s| {
      var next := IPv6Next(s);
      if next < |s| {
        IPv6Chars(s[next..], bytes + 2, ellipsis || next == n + 2);
      }
      hide IPv6From, HexRun;
      forall c | c in s ensures IsIPChar(c) {
        var i :| 0 <= i < |s| && s[i] == c;
        assert i < n || i == n || i == n + 1 == next - 1 || c == s[next..][i - next];
      }
    }
  }

  /** Unless "::" was already seen, an IPv6 text has at least two colons, because each group still
      missing needs one. */
  lemma {:induction false} IPv6Colons(s: string, bytes: nat)
    requires IPv6From(s, bytes, false)
    ensures Count(s, ':') >= 2 || 2 * Count(s, ':') >= 12 - bytes
  {
    hide IPv4From, HexRun, Count;
    var n := HexRun(s);
    if n < |s| && s[n] == ':' {
      var next := IPv6Next(s);
      assert s == s[..next] + s[next..];
      CountOfConcat(s[..next], s[next..], ':');
      if next == n + 2 {
        CountTwo(s, n);
      } else {
        CountOne(s, n);
        IPv6Colons(s[next..], bytes + 2);
      }
    }
  }

  lemma CountOne(s: string, n: nat)
    requires n < |s| && s[n] == ':'
    ensures Count(s[..n + 1], ':') >= 1
  {
    assert s[..n + 1][n] in s[..n + 1];
    CountZeroIffAbsent(s[..n + 1], ':');
  }

  lemma CountTwo(s: string, n: nat)
    requires n + 1 < |s| && s[n] == ':' && s[n + 1] == ':'
    ensures Count(s[..n + 2], ':') >= 2
  {
    assert s[..n + 2] == s[..n + 1] + [':'];
    CountOfConcat(s[..n + 1], [':'], ':');
    CountOne(s, n);
  }

  /** An IP literal with a colon is an IPv6 one, and has at least two. */
  lemma IPShape(s: string)
    requires ParsesAsIP(s)
    ensures forall c | c in s :: IsIPChar(c)
    ensures if ':' in s then IsIPv6(s) && Count(s, ':') >= 2 else Count(s, ':') == 0
  {
    hide IPv4From, IPv6From, HexRun, Count, Index;
    CountZeroIffAbsent(s, ':');
    var dot, colon := Index(s, '.'), Index(s, ':');
    if colon < 0 || 0 <= dot < colon {
      IPv4Chars(s, 0, 0, 0);
    } else if |s| >= 2 && s[0] == ':' && s[1] == ':' {
      assert s == "::" + s[2..];
      if |s| > 2 {
        IPv6Chars(s[2..], 0, true);
      }
      CountTwo(s, 0);
      CountOfConcat(s[..2], s[2..], ':');
      assert s == s[..2] + s[2..];
    } else {
      IPv6Chars(s, 0, false);
      IPv6Colons(s, 0);
    }
  }

  // ---------------------------------------------------------------- safety predicates

  predicate IsUserChar(c: char) { IsHostChar(c) || c == '+' }

  predicate IsHostChar(c: char) { IsLetter(c) || IsDigit(c) || c == '.' || c == '_' || c == '-' }

  predicate IsSafeUser(user: string) { user != "" && forall c | c in user :: IsUserChar(c) }

  predicate IsSafeHost(host: string) {
    host != "" && (ParsesAsIP(host) || forall c | c in host :: IsHostChar(c))
  }

  const MAX_INT64: int := 0x7FFF_FFFF_FFFF_FFFF

  function DigitValue(c: char): nat
    requires IsAsciiDigit(c)
  {
    c as int - '0' as int
  }

  function DecimalValue(s: string): nat
    requires forall c | c in s :: IsAsciiDigit(c)
  {
    if s == "" then 0
    else
      assert s[|s| - 1] in s;
      10 * DecimalValue(s[..|s| - 1]) + DigitValue(s[|s| - 1])
  }

  /** strconv.Atoi on a string without sign: digits only, and no overflow of a 64-bit int. */
  function Atoi(s: string): Option<nat> {
    if s == "" || exists c | c in s :: !IsAsciiDigit(c) then None
    else if DecimalValue(s) > MAX_INT64 then None
    else Some(DecimalValue(s))
  }

  predicate IsSafePort(port: string) {
    && port != ""
    && (forall c | c in port :: IsDigit(c))
    && Atoi(port).Some?
    && 1 <= Atoi(port).value <= 65535
  }

  function Zeros(k: nat): (s: string)
    ensures |s| == k && forall i | 0 <= i < k :: s[i] == '0'
  {
    seq(k, _ => '0')
  }

  /** The decimal text of n, with any number of leading zeros. */
  ghost predicate IsNumeral(s: string, n: nat) { exists k: nat :: s == Zeros(k) + Digits(n) }

  lemma {:induction false} ValueOfNumeral(k: nat, n: nat)
    ensures forall c | c in Zeros(k) + Digits(n) :: IsAsciiDigit(c)
    ensures DecimalValue(Zeros(k) + Digits(n)) == n
  {
    var s := Zeros(k) + Digits(n);
    var init := s[..|s| - 1];
    if n < 10 {
      assert init == Zeros(k);
      ValueOfZeros(k);
      assert s == init + [Digit(n)];
    } else {
      ValueOfNumeral(k, n / 10);
      assert init == Zeros(k) + Digits(n / 10);
      assert s == init + [Digit(n % 10)];
    }
  }

  lemma {:induction false} ValueOfZeros(k: nat)
    ensures DecimalValue(Zeros(k)) == 0
  {
    if k > 0 {
      assert Zeros(k)[..k - 1] == Zeros(k - 1);
      ValueOfZeros(k - 1);
    }
  }

  lemma DigitsAppend(m: nat, d: nat)
    requires d < 10
    ensures m > 0 ==> Digits(10 * m + d) == Digits(m) + [Digit(d)]
    ensures Digits(d) == [Digit(d)]
  {
    if m > 0 {
      assert (10 * m + d) / 10 == m && (10 * m + d) % 10 == d;
    }
  }

  lemma DigitOfValue(c: char)
    requires IsAsciiDigit(c)
    ensures DigitValue(c) < 10 && Digit(DigitValue(c)) == c
  {
  }

  lemma InitDigits(s: string)
    requires s != "" && forall c | c in s :: IsAsciiDigit(c)
    ensures IsAsciiDigit(s[|s| - 1]) && forall c | c in s[..|s| - 1] :: IsAsciiDigit(c)
  {
    hide IsAsciiDigit;
    assert s[|s| - 1] in s;
    assert s == s[..|s| - 1] + [s[|s| - 1]];
  }

  lemma DecimalStep(init: string, last: char)
    requires IsAsciiDigit(last) && forall c | c in init :: IsAsciiDigit(c)
    ensures forall c | c in init + [last] :: IsAsciiDigit(c)
    ensures DecimalValue(init + [last]) == 10 * DecimalValue(init) + DigitValue(last)
  {
    hide IsAsciiDigit, DigitValue;
    assert (init + [last])[..|init|] == init;
  }

  lemma LastDigit(s: string)
    requires s != "" && forall c | c in s :: IsAsciiDigit(c)
    ensures IsAsciiDigit(s[|s| - 1]) && DigitValue(s[|s| - 1]) < 10
    ensures s == s[..|s| - 1] + [Digit(DigitValue(s[|s| - 1]))]
    ensures forall c | c in s[..|s| - 1] :: IsAsciiDigit(c)
    ensures DecimalValue(s) == 10 * DecimalValue(s[..|s| - 1]) + DigitValue(s[|s| - 1])
  {
    hide IsAsciiDigit, Digit, DigitValue, DecimalValue;
    InitDigits(s);
    var init, last := s[..|s| - 1], s[|s| - 1];
    assert s == init + [last];
    DigitOfValue(last);
    DecimalStep(init, last);
  }

  lemma {:induction false} NumeralOfValue(s: string)
    requires s != "" && forall c | c in s :: IsAsciiDigit(c)
    ensures IsNumeral(s, DecimalValue(s))
  {
    hide Zeros, Digits, IsNumeral, Digit, DecimalValue;
    LastDigit(s);
    var init, d := s[..|s| - 1], DigitValue(s[|s| - 1]);
    if init == "" {
      NothingIsZero();
      DigitsAppend(0, d);
      assert s == [Digit(d)];
      NumeralIs(s, d);
    } else {
      NumeralOfValue(init);
      NumeralGrows(init, DecimalValue(init), d);
    }
  }

  lemma NothingIsZero()
    ensures DecimalValue("") == 0
  {
  }

  lemma NumeralIs(s: string, n: nat)
    requires s == Digits(n)
    ensures IsNumeral(s, n)
  {
    hide Digits;
    assert Zeros(0) + Digits(n) == s;
  }

  lemma NumeralGrows(s: string, m: nat, d: nat)
    requires d < 10 && IsNumeral(s, m)
    ensures IsNumeral(s + [Digit(d)], 10 * m + d)
  {
    hide Zeros, Digits;
    var k: nat :| s == Zeros(k) + Digits(m);
    DigitsAppend(m, d);
    if m == 0 {
      DigitsAppend(0, 0);
      assert s == Zeros(k + 1);
      assert s + [Digit(d)] == Zeros(k + 1) + Digits(d);
    } else {
      assert s + [Digit(d)] == Zeros(k) + Digits(10 * m + d);
    }
  }

  /** A safe port is the decimal text of a number from 1 to 65535, leading zeros allowed. */
  lemma SafePortIff(port: string)
    ensures IsSafePort(port) <==> exists n: nat :: 1 <= n <= 65535 && IsNumeral(port, n)
  {
    hide DecimalValue, Zeros, Digits;
    if IsSafePort(port) {
      NumeralOfValue(port);
      assert IsNumeral(port, DecimalValue(port));
    }
    forall n: nat | 1 <= n <= 65535 && IsNumeral(port, n) ensures IsSafePort(port) {
      var k: nat :| port == Zeros(k) + Digits(n);
      ValueOfNumeral(k, n);
      assert forall c | c in port :: IsDigit(c) by {
        forall c | c in port ensures IsDigit(c) {
          assert IsAsciiDigit(c);
        }
      }
    }
  }

  predicate IsSafeTarget(t: Target) { IsSafeUser(t.user) && IsSafeHost(t.host) && IsSafePort(t.port) }

  // ---------------------------------------------------------------- net.SplitHostPort and net.JoinHostPort

  function SplitHostPort(s: string): Option<(string, string)> {
    var i := LastIndex(s, ':');
    if i < 0 then None
    else if s[0] == '[' then
      var end := Index(s, ']');
      if end < 0 || end + 1 != i then None
      else if '[' in s[1..] || ']' in s[end + 1..] then None
      else Some((s[1..end], s[i + 1..]))
    else if ':' in s[..i] || '[' in s || ']' in s then None
    else Some((s[..i], s[i + 1..]))
  }

  function JoinHostPort(host: string, port: string): string {
    if ':' in host then "[" + host + "]:" + port else host + ":" + port
  }

  // ---------------------------------------------------------------- the parser and the printer

  /** The characters no address may contain: blanks, quotes and shell metacharacters. */
  predicate IsUnsafe(c: char) {
    || c == ' ' || c == '\t' || c == '\r' || c == '\n' || c == '"' || c == '\'' || c == '`' || c == ';' || c == '&'
    || c == '|' || c == '<' || c == '>' || c == '\\' || c == '(' || c == ')' || c == '{' || c == '}'
  }

  /** The host and port part, before the safety checks. */
  function SplitHostPart(hostPort: string): (string, string) {
    if StartsWith(hostPort, '[') then
      match SplitHostPort(hostPort)
      case Some(parsed) => parsed
      case None =>
        var inner := hostPort[1..];
        (if inner != "" && inner[|inner| - 1] == ']' then inner[..|inner| - 1] else inner, "22")
    else if Count(hostPort, ':') == 1 then
      match SplitHostPort(hostPort)
      case Some(parsed) => parsed
      case None =>
        CountZeroIffAbsent(hostPort, ':');
        var i := Index(hostPort, ':');
        (hostPort[..i], hostPort[i + 1..])
    else (hostPort, "22")
  }

  function SplitChecked(user: string, hostPort: string): Result<Target, AddressError> {
    var (host, port) := SplitHostPart(hostPort);
    if host == "" then Err(InvalidFormat)
    else if !IsSafeHost(host) then Err(InvalidHost)
    else if !IsSafePort(port) then Err(InvalidPort)
    else Ok(Target(user, host, port))
  }

  function SplitTargetAddress(address: string): Result<Target, AddressError> {
    if Blank(address) then Err(InvalidFormat)
    else if TrimSpace(address) != address then Err(OuterSpace)
    else if exists c | c in address :: IsUnsafe(c) then Err(UnsafeCharacters)
    else
      var at := Index(address, '@');
      if at < 0 then SplitChecked("", address)
      else
        var user, hostPort := address[..at], address[at + 1..];
        if user == "" || hostPort == "" then Err(InvalidFormat)
        else if !IsSafeUser(user) then Err(InvalidUser)
        else SplitChecked(user, hostPort)
  }

  function ResolveTargetAddress(address: string, sessionUser: string): Result<Target, AddressError> {
    match SplitTargetAddress(address)
    case Err(e) => Err(e)
    case Ok(t) =>
      if t.user != "" then Ok(t)
      else if !IsSafeUser(TrimSpace(sessionUser)) then Err(InvalidSessionUser)
      else Ok(t.(user := TrimSpace(sessionUser)))
  }

  function FormatTargetAddress(t: Target): string {
    if t.user == "" || t.host == "" then ""
    else if t.port == "" then t.user + "@" + t.host
    else t.user + "@" + JoinHostPort(t.host, t.port)
  }

  // ---------------------------------------------------------------- the accepted language

  /** The spellings of one host and port: "host:port" for a host without colons, brackets around
      any host, and for port 22 the bare host, with its brackets or with the opening one only. */
  predicate SpellsHostPort(s: string, host: string, port: string) {
    || (':' !in host && s == host + ":" + port)
    || s == "[" + host + "]:" + port
    || (port == "22" && (s == host || s == "[" + host + "]" || s == "[" + host))
  }

  predicate Spells(s: string, t: Target) {
    && IsSafeHost(t.host)
    && IsSafePort(t.port)
    && if t.user == "" then SpellsHostPort(s, t.host, t.port)
       else
         && IsSafeUser(t.user)
         && |t.user| < |s|
         && s[..|t.user| + 1] == t.user + "@"
         && SpellsHostPort(s[|t.user| + 1..], t.host, t.port)
  }

  /** A character an accepted address may contain. */
  predicate IsPlain(c: char) { !IsSpace(c) && !IsUnsafe(c) }

  /** No host character can be mistaken for a delimiter, and a host never has exactly one colon. */
  lemma SafeHostShape(host: string)
    requires IsSafeHost(host)
    ensures forall c | c in host :: IsPlain(c) && c != '[' && c != ']' && c != '@'
    ensures Count(host, ':') != 1
    ensures ':' in host ==> IsIPv6(host) && Count(host, ':') >= 2
  {
    hide ParsesAsIP, IsIPv6, Count;
    if ParsesAsIP(host) {
      IPShape(host);
    } else {
      CountZeroIffAbsent(host, ':');
      assert forall c | c in host :: IsHostChar(c);
      assert ':' !in host;
    }
  }

  /** Among ASCII texts the safe user names are those of letters, digits, '.', '_', '-' and '+', and the
      safe hosts without a colon those of the same characters but '+'. */
  lemma AsciiNames(s: string)
    requires forall c | c in s :: c < '\U{80}'
    ensures IsSafeUser(s) <==>
              s != "" && forall c | c in s :: 'a' <= c <= 'z' || 'A' <= c <= 'Z' || '0' <= c <= '9' || c in {'.', '_', '-', '+'}
    ensures ':' !in s ==>
              (IsSafeHost(s) <==>
                 s != "" && forall c | c in s :: 'a' <= c <= 'z' || 'A' <= c <= 'Z' || '0' <= c <= '9' || c in {'.', '_', '-'})
  {
    hide ParsesAsIP;
    if ':' !in s && ParsesAsIP(s) {
      DottedIsPlain(s);
    }
  }

  lemma DottedIsPlain(s: string)
    requires ParsesAsIP(s) && ':' !in s
    ensures forall c | c in s :: IsAsciiDigit(c) || c == '.'
  {
    IPv4Chars(s, 0, 0, 0);
  }

  lemma SafePortShape(port: string)
    requires IsSafePort(port)
    ensures forall c | c in port :: IsAsciiDigit(c) && IsPlain(c)
  {
  }

  lemma SafeUserShape(user: string)
    requires IsSafeUser(user)
    ensures forall c | c in user :: IsPlain(c) && c != '[' && c != ']' && c != '@' && c != ':'
  {
  }

  lemma CountOfJoin(host: string, port: string)
    ensures Count(host + ":" + port, ':') == Count(host, ':') + 1 + Count(port, ':')
  {
    CountOfConcat(host, ":", ':');
    CountOfConcat(host + ":", port, ':');
  }

  lemma JoinedPair(host: string, port: string)
    requires ':' !in host && '[' !in host && ']' !in host
    requires forall c | c in port :: IsAsciiDigit(c)
    ensures var s := host + ":" + port;
            LastIndex(s, ':') == |host| && s[..|host|] == host && s[|host| + 1..] == port && '[' !in s && ']' !in s
            && Count(s, ':') == 1
  {
    var s := host + ":" + port;
    CountOfJoin(host, port);
    CountZeroIffAbsent(host, ':');
    CountZeroIffAbsent(port, ':');
    assert s[|host| + 1..] == port;
    LastIndexAt(s, ':', |host|);
  }

  lemma SplitOfHostColonPort(host: string, port: string)
    requires host != "" && ':' !in host && '[' !in host && ']' !in host
    requires forall c | c in port :: IsAsciiDigit(c)
    ensures SplitHostPart(host + ":" + port) == (host, port)
  {
    hide IsAsciiDigit, LastIndex, Count, Index;
    JoinedPair(host, port);
    assert (host + ":" + port)[0] == host[0];
  }

  lemma SplitOfBracketed(host: string, port: string)
    requires '[' !in host && ']' !in host
    requires forall c | c in port :: IsAsciiDigit(c)
    ensures SplitHostPart("[" + host + "]:" + port) == (host, port)
  {
    hide LastIndex, Index;
    var s := "[" + host + "]:" + port;
    var n := |host| + 1;
    assert s[n + 2..] == port;
    assert ':' !in port && '[' !in port && ']' !in port by {
      assert !IsAsciiDigit(':') && !IsAsciiDigit('[') && !IsAsciiDigit(']');
    }
    LastIndexAt(s, ':', n + 1);
    assert s[..n] == "[" + host && s[1..n] == host;
    IndexAt(s, ']', n);
    assert s[n + 1..] == ":" + port;
    assert s[1..] == host + "]:" + port;
  }

  lemma SplitOfOpenBracket(host: string)
    requires ']' !in host
    ensures SplitHostPart("[" + host) == (host, "22")
  {
    var s := "[" + host;
    assert ']' !in s;
    assert s[1..] == host;
    LastIndexSplits(s, ':');
  }

  lemma SplitOfBrackets(host: string)
    requires ']' !in host
    ensures SplitHostPart("[" + host + "]") == (host, "22")
  {
    var s := "[" + host + "]";
    assert s[1..] == host + "]";
    assert s[1..][..|host|] == host;
    assert s[..|s| - 1] == "[" + host;
    IndexAt(s, ']', |s| - 1);
    assert SplitHostPort(s).None?;
  }

  /** Splitting recovers a safe host and port from every spelling of them. */
  lemma SplitOfSpelling(s: string, host: string, port: string)
    requires IsSafeHost(host) && IsSafePort(port) && SpellsHostPort(s, host, port)
    ensures SplitHostPart(s) == (host, port)
  {
    SafeHostShape(host);
    SafePortShape(port);
    assert host[0] in host;
    assert host[0] != '[';
    assert SplitHostPart(host) == (host, "22");
    hide SplitHostPart, IsSafeHost, IsSafePort, IsPlain;
    if ':' !in host && s == host + ":" + port {
      SplitOfHostColonPort(host, port);
    } else if s == "[" + host + "]:" + port {
      SplitOfBracketed(host, port);
    } else if s == "[" + host + "]" {
      SplitOfBrackets(host);
    } else if s == "[" + host {
      SplitOfOpenBracket(host);
    }
  }

  lemma DelimitersArePlain()
    ensures IsPlain('[') && IsPlain(']') && IsPlain(':') && IsPlain('@')
  {
  }

  lemma SpellingIsPlain(s: string, host: string, port: string)
    requires IsSafeHost(host) && IsSafePort(port) && SpellsHostPort(s, host, port)
    ensures s != "" && forall c | c in s :: IsPlain(c) && c != '@'
  {
    SafeHostShape(host);
    SafePortShape(port);
    DelimitersArePlain();
    hide IsSafeHost, IsSafePort, IsPlain;
    forall c | c in s ensures IsPlain(c) && c != '@' {
      assert c in host || c in port || c == '[' || c == ']' || c == ':';
    }
  }

  lemma SpellingOfBracketSplit(s: string)
    requires StartsWith(s, '[')
    ensures var (host, port) := SplitHostPart(s);
            s == "[" + host + "]:" + port || (port == "22" && (s == "[" + host + "]" || s == "[" + host))
  {
    hide LastIndex, Index;
    if SplitHostPort(s).Some? {
      var i := LastIndex(s, ':');
      assert s == s[..1] + s[1..i - 1] + s[i - 1..i + 1] + s[i + 1..];
      assert s[i - 1..i + 1] == "]:";
    } else {
      var inner := s[1..];
      assert s == "[" + inner;
      if inner != "" && inner[|inner| - 1] == ']' {
        assert inner == inner[..|inner| - 1] + "]";
        assert s == "[" + inner[..|inner| - 1] + "]";
      }
    }
  }

  lemma SpellingOfColonSplit(s: string)
    requires !StartsWith(s, '[') && Count(s, ':') == 1
    ensures s == SplitHostPart(s).0 + ":" + SplitHostPart(s).1
  {
    hide LastIndex, Count, Index;
    CountZeroIffAbsent(s, ':');
    LastIndexSplits(s, ':');
    var i := if SplitHostPort(s).Some? then LastIndex(s, ':') else Index(s, ':');
    assert s == s[..i] + ":" + s[i + 1..];
  }

  lemma OneColonIsTheJoin(host: string, port: string)
    requires Count(host + ":" + port, ':') == 1
    ensures ':' !in host
  {
    CountOfJoin(host, port);
    CountZeroIffAbsent(host, ':');
  }

  /** Whatever splits into a safe host and port is one of their spellings. */
  lemma SpellingOfSplit(s: string)
    requires IsSafeHost(SplitHostPart(s).0) && IsSafePort(SplitHostPart(s).1)
    ensures SpellsHostPort(s, SplitHostPart(s).0, SplitHostPart(s).1)
  {
    hide IsSafeHost, IsSafePort, Count, SplitHostPort, Index;
    var (host, port) := SplitHostPart(s);
    if StartsWith(s, '[') {
      SpellingOfBracketSplit(s);
    } else if Count(s, ':') == 1 {
      SpellingOfColonSplit(s);
      OneColonIsTheJoin(host, port);
    }
  }

  lemma PlainIsTrimmed(s: string)
    requires s != "" && forall c | c in s :: IsPlain(c)
    ensures TrimSpace(s) == s && !Blank(s)
  {
    assert s[0] in s && s[|s| - 1] in s;
    TrimSpaceFixpoint(s);
  }

  lemma CheckedSplitIff(user: string, s: string, t: Target)
    ensures SplitChecked(user, s) == Ok(t) <==>
              t.user == user && IsSafeHost(t.host) && IsSafePort(t.port) && SpellsHostPort(s, t.host, t.port)
    ensures SplitChecked(user, s) == Ok(t) ==> s != "" && forall c | c in s :: IsPlain(c) && c != '@'
  {
    if SplitChecked(user, s) == Ok(t) {
      SpellingOfSplit(s);
    }
    if IsSafeHost(t.host) && IsSafePort(t.port) && SpellsHostPort(s, t.host, t.port) {
      SplitOfSpelling(s, t.host, t.port);
    }
    if SplitChecked(user, s) == Ok(t) {
      SpellingIsPlain(s, t.host, t.port);
    }
  }

  lemma SpellingIsAccepted(address: string, t: Target)
    requires Spells(address, t)
    ensures SplitTargetAddress(address) == Ok(t)
  {
    hide SplitChecked, IsSafeHost, IsSafePort, SpellsHostPort, TrimSpace, IsSafeUser;
    if t.user == "" {
      CheckedSplitIff("", address, t);
      PlainIsTrimmed(address);
    } else {
      var rest := address[|t.user| + 1..];
      CheckedSplitIff(t.user, rest, t);
      SafeUserShape(t.user);
      assert address == t.user + "@" + rest;
      PlainIsTrimmed(address);
      assert address[..|t.user|] == t.user;
      IndexAt(address, '@', |t.user|);
    }
  }

  lemma AcceptedIsSpelling(address: string, t: Target)
    requires SplitTargetAddress(address) == Ok(t)
    ensures Spells(address, t)
  {
    hide SplitChecked, IsSafeHost, IsSafePort, SpellsHostPort;
    var at := Index(address, '@');
    if at < 0 {
      CheckedSplitIff("", address, t);
    } else {
      CheckedSplitIff(address[..at], address[at + 1..], t);
      assert address[..at + 1] == address[..at] + "@";
    }
  }

  /** The parser accepts exactly the spellings of safe targets, each as the target it spells. */
  lemma AcceptedLanguage(address: string, t: Target)
    ensures SplitTargetAddress(address) == Ok(t) <==> Spells(address, t)
  {
    if SplitTargetAddress(address) == Ok(t) {
      AcceptedIsSpelling(address, t);
    }
    if Spells(address, t) {
      SpellingIsAccepted(address, t);
    }
  }

  /** Round trip: printing a safe target and splitting the text gives the target back. */
  lemma SplitOfFormat(t: Target)
    requires IsSafeTarget(t)
    ensures SplitTargetAddress(FormatTargetAddress(t)) == Ok(t)
  {
    var s := FormatTargetAddress(t);
    assert s[..|t.user| + 1] == t.user + "@";
    assert s[|t.user| + 1..] == JoinHostPort(t.host, t.port);
    AcceptedLanguage(s, t);
  }

  /** The printed form of a safe target has brackets exactly around a host with colons. */
  lemma FormatIs(t: Target)
    requires IsSafeTarget(t)
    ensures FormatTargetAddress(t) ==
              t.user + "@" + (if ':' in t.host then "[" + t.host + "]" else t.host) + ":" + t.port
  {
    hide IsSafeHost, IsSafeUser;
    SafeHostShape(t.host);
    assert t.user != "" && t.host != "" by {
      NotEmpty(t);
    }
    var host := if ':' in t.host then "[" + t.host + "]" else t.host;
    assert t.user + "@" + host + ":" + t.port == t.user + "@" + (host + ":" + t.port);
  }

  lemma NotEmpty(t: Target)
    requires IsSafeTarget(t)
    ensures t.user != "" && t.host != "" && t.port != ""
  {
  }

  /** Every address that resolves, however it was spelt, resolves to a safe target whose printed
      form splits, and resolves for any session user, to that same target. */
  lemma ResolveIsStable(address: string, sessionUser: string, anyUser: string)
    requires ResolveTargetAddress(address, sessionUser).Ok?
    ensures var t := ResolveTargetAddress(address, sessionUser).value;
            && IsSafeTarget(t)
            && SplitTargetAddress(FormatTargetAddress(t)) == Ok(t)
            && ResolveTargetAddress(FormatTargetAddress(t), anyUser) == Ok(t)
  {
    var t := SplitTargetAddress(address).value;
    AcceptedLanguage(address, t);
    SplitOfFormat(ResolveTargetAddress(address, sessionUser).value);
  }

  lemma ResolvedIsSafe(address: string, sessionUser: string)
    ensures ResolveTargetAddress(address, sessionUser).Ok? ==> IsSafeTarget(ResolveTargetAddress(address, sessionUser).value)
  {
    hide *;
    if ResolveTargetAddress(address, sessionUser).Ok? {
      ResolveIsStable(address, sessionUser, sessionUser);
    }
  }

  /** The target an address stands for: what it spells, with the session user where it names none. */
  ghost predicate SpellsFor(address: string, sessionUser: string, t: Target) {
    exists s: Target ::
      && Spells(address, s)
      && t.host == s.host && t.port == s.port
      && if s.user != "" then t.user == s.user else t.user == TrimSpace(sessionUser) && IsSafeUser(t.user)
  }

  /** Resolving gives exactly the targets that an address stands for. */
  lemma ResolvesTo(address: string, sessionUser: string, t: Target)
    ensures ResolveTargetAddress(address, sessionUser) == Ok(t) <==> SpellsFor(address, sessionUser, t)
  {
    hide SplitTargetAddress, Spells, TrimSpace, IsSafeUser;
    if ResolveTargetAddress(address, sessionUser) == Ok(t) {
      AcceptedLanguage(address, SplitTargetAddress(address).value);
    }
    if SpellsFor(address, sessionUser, t) {
      var s: Target :| && Spells(address, s)
                       && t.host == s.host && t.port == s.port
                       && if s.user != "" then t.user == s.user else t.user == TrimSpace(sessionUser) && IsSafeUser(t.user);
      AcceptedLanguage(address, s);
    }
  }

  /** An address resolves exactly when it splits and some user name is available for it. */
  lemma ResolvesIff(address: string, sessionUser: string)
    ensures ResolveTargetAddress(address, sessionUser).Ok? <==>
              && SplitTargetAddress(address).Ok?
              && (SplitTargetAddress(address).value.user != "" || IsSafeUser(TrimSpace(sessionUser)))
    ensures SplitTargetAddress(address).Ok? ==> !Blank(address) && TrimSpace(address) == address
  {
  }
}
