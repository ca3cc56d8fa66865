/** Go's string helpers, on strings seen as sequences of runes. */
module Text {

  datatype Option<+T> = None | Some(value: T)

  datatype Result<+T, +E> = Ok(value: T) | Err(error: E)

  // ---------------------------------------------------------------- character classes

  predicate IsAsciiLetter(c: char) { 'a' <= c <= 'z' || 'A' <= c <= 'Z' }

  predicate IsAsciiDigit(c: char) { '0' <= c <= '9' }

  function AsciiLower(c: char): char {
    if 'A' <= c <= 'Z' then (c as int + 32) as char else c
  }

  /** unicode.IsSpace */
  predicate IsSpace(c: char) {
    || '\t' <= c <= '\r' || c == ' ' || c == '\U{85}' || c == '\U{A0}' || c == '\U{1680}'
    || '\U{2000}' <= c <= '\U{200A}' || '\U{2028}' <= c <= '\U{2029}' || c == '\U{202F}'
    || c == '\U{205F}' || c == '\U{3000}'
  }

  /** The Unicode tables behind unicode.IsLetter, unicode.IsDigit and unicode.ToLower. */
  datatype CharTables = CharTables(letter: char -> bool, digit: char -> bool, lower: char -> char)

  /** What the model relies on: the tables extend ASCII, white space is neither letter nor digit, and
      lowering is idempotent and keeps white space apart. */
  ghost predicate IsUnicodeLike(t: CharTables) {
    && (forall c: char | c < '\U{80}' ::
          && (t.letter(c) <==> IsAsciiLetter(c))
          && (t.digit(c) <==> IsAsciiDigit(c))
          && t.lower(c) == AsciiLower(c))
    && (forall c: char | IsSpace(c) :: !t.letter(c) && !t.digit(c))
    && (forall c: char :: t.lower(t.lower(c)) == t.lower(c) && (IsSpace(t.lower(c)) <==> IsSpace(c)))
  }

  type UnicodeTables = t: CharTables | IsUnicodeLike(t)
    witness CharTables(c => IsAsciiLetter(c), c => IsAsciiDigit(c), c => AsciiLower(c))

  /** Any such tables: every result below holds whichever they are. */
  const UNICODE: UnicodeTables

  predicate IsLetter(c: char) { UNICODE.letter(c) }

  predicate IsDigit(c: char) { UNICODE.digit(c) }

  // ---------------------------------------------------------------- searching

  /** strings.Index of a single character, -1 when absent. */
  function Index(s: string, c: char): (i: int)
    ensures -1 <= i < |s|
    ensures i == -1 <==> c !in s
    ensures i >= 0 ==> s[i] == c && c !in s[..i]
  {
    if s == "" then -1
    else if s[0] == c then 0
    else
      var i := Index(s[1..], c);
      assert i >= 0 ==> s[..i + 1] == [s[0]] + s[1..][..i];
      if i < 0 then -1 else i + 1
  }

  lemma {:induction false} IndexAt(s: string, c: char, n: nat)
    requires n < |s| && s[n] == c && c !in s[..n]
    ensures Index(s, c) == n
  {
    if n > 0 {
      assert s[0] == s[..n][0];
      assert s[1..][..n - 1] == s[..n][1..];
      IndexAt(s[1..], c, n - 1);
    }
  }

  /** strings.LastIndex of a single character, -1 when absent. */
  function LastIndex(s: string, c: char): (i: int)
    ensures -1 <= i < |s|
    ensures i >= 0 ==> s[i] == c
  {
    if s == "" then -1
    else if s[|s| - 1] == c then |s| - 1
    else LastIndex(s[..|s| - 1], c)
  }

  lemma {:induction false} LastIndexSplits(s: string, c: char)
    ensures LastIndex(s, c) == -1 <==> c !in s
    ensures c !in s[LastIndex(s, c) + 1..]
  {
    LastIndexIsLast(s, c);
    assert forall k | 0 <= k < |s| :: s[k] == c ==> k <= LastIndex(s, c);
  }

  lemma {:induction false} LastIndexIsLast(s: string, c: char)
    ensures forall k | LastIndex(s, c) < k < |s| :: s[k] != c
  {
    if s != "" && s[|s| - 1] != c {
      LastIndexIsLast(s[..|s| - 1], c);
      assert forall k | 0 <= k < |s| - 1 :: s[..|s| - 1][k] == s[k];
    }
  }

  lemma {:induction false} LastIndexAt(s: string, c: char, n: nat)
    requires n < |s| && s[n] == c && c !in s[n + 1..]
    ensures LastIndex(s, c) == n
  {
    if n < |s| - 1 {
      assert s[|s| - 1] == s[n + 1..][|s| - n - 2];
      assert s[..|s| - 1][n + 1..] == s[n + 1..][..|s| - n - 2];
      LastIndexAt(s[..|s| - 1], c, n);
    }
  }

  /** strings.Count of a single character. */
  function Count(s: string, c: char): nat {
    if s == "" then 0 else (if s[0] == c then 1 else 0) + Count(s[1..], c)
  }

  lemma {:induction false} CountOfConcat(a: string, b: string, c: char)
    ensures Count(a + b, c) == Count(a, c) + Count(b, c)
  {
    if a == "" {
      assert a + b == b;
    } else {
      assert (a + b)[1..] == a[1..] + b;
      CountOfConcat(a[1..], b, c);
    }
  }

  lemma {:induction false} CountZeroIffAbsent(s: string, c: char)
    ensures Count(s, c) == 0 <==> c !in s
  {
    if s != "" {
      CountZeroIffAbsent(s[1..], c);
    }
  }

  /** strings.HasPrefix of a single character. */
  predicate StartsWith(s: string, c: char) { s != "" && s[0] == c }

  // ---------------------------------------------------------------- trimming and case

  function TrimLeft(s: string, drop: char -> bool): (r: string)
    ensures |r| <= |s| && r == s[|s| - |r|..]
    ensures r != "" ==> !drop(r[0])
    ensures forall i | 0 <= i < |s| - |r| :: drop(s[i])
  {
    if s != "" && drop(s[0]) then TrimLeft(s[1..], drop) else s
  }

  function TrimRight(s: string, drop: char -> bool): (r: string)
    ensures |r| <= |s| && r == s[..|r|]
    ensures r != "" ==> !drop(r[|r| - 1])
    ensures forall i | |r| <= i < |s| :: drop(s[i])
  {
    if s != "" && drop(s[|s| - 1]) then TrimRight(s[..|s| - 1], drop) else s
  }

  function Trim(s: string, drop: char -> bool): string {
    TrimRight(TrimLeft(s, drop), drop)
  }

  /** strings.TrimSpace */
  function TrimSpace(s: string): string { Trim(s, c => IsSpace(c)) }

  predicate Blank(s: string) { TrimSpace(s) == "" }

  /** Trimming stops at the first and last kept character, so a trimmed string trims to itself. */
  lemma TrimFixpoint(s: string, drop: char -> bool)
    ensures Trim(s, drop) == s <==> (s == "" || (!drop(s[0]) && !drop(s[|s| - 1])))
    ensures Trim(Trim(s, drop), drop) == Trim(s, drop)
    ensures forall c | c in Trim(s, drop) :: c in s
  {
    var l := TrimLeft(s, drop);
    var t := TrimRight(l, drop);
    if t != "" {
      assert t[0] == l[0];
    }
  }

  /** Trimming takes dropped characters off both ends, as many as there are, and nothing else. */
  lemma TrimSplits(s: string, drop: char -> bool) returns (a: string, b: string)
    ensures s == a + Trim(s, drop) + b
    ensures forall i | 0 <= i < |a| :: drop(a[i])
    ensures forall i | 0 <= i < |b| :: drop(b[i])
    ensures Trim(s, drop) != "" ==> !drop(Trim(s, drop)[0]) && !drop(Trim(s, drop)[|Trim(s, drop)| - 1])
  {
    hide TrimLeft, TrimRight;
    var l := TrimLeft(s, drop);
    var t := TrimRight(l, drop);
    a, b := s[..|s| - |l|], l[|t|..];
    assert s == a + l && l == t + b;
    assert t != "" ==> t[0] == l[0];
  }

  lemma TrimSpaceFixpoint(s: string)
    ensures TrimSpace(s) == s <==> (s == "" || (!IsSpace(s[0]) && !IsSpace(s[|s| - 1])))
    ensures TrimSpace(TrimSpace(s)) == TrimSpace(s)
  {
    TrimFixpoint(s, c => IsSpace(c));
  }

  lemma BlankIff(s: string)
    ensures Blank(s) <==> forall i | 0 <= i < |s| :: IsSpace(s[i])
  {
    var l := TrimLeft(s, c => IsSpace(c));
    assert l != "" ==> !IsSpace(l[0]) && l[0] == s[|s| - |l|];
  }

  /** strings.ToLower */
  function ToLower(s: string): (r: string)
    ensures |r| == |s|
    ensures forall i | 0 <= i < |s| :: r[i] == UNICODE.lower(s[i])
  {
    if s == "" then "" else [UNICODE.lower(s[0])] + ToLower(s[1..])
  }

  /** strings.ToLower after strings.TrimSpace: how every enumerated setting is normalised. */
  function Folded(s: string): string { ToLower(TrimSpace(s)) }

  lemma ToLowerIdempotent(s: string)
    ensures ToLower(ToLower(s)) == ToLower(s)
  {
  }

  /** Folding drops the outer white space and lowers each letter. */
  lemma FoldedIs(s: string)
    ensures |Folded(s)| == |TrimSpace(s)|
    ensures forall i | 0 <= i < |Folded(s)| :: Folded(s)[i] == UNICODE.lower(TrimSpace(s)[i])
    ensures forall i | 0 <= i < |Folded(s)| && TrimSpace(s)[i] < '\U{80}' :: Folded(s)[i] == AsciiLower(TrimSpace(s)[i])
  {
    hide TrimSpace;
  }

  lemma FoldedIdempotent(s: string)
    ensures Folded(Folded(s)) == Folded(s)
  {
    TrimSpaceFixpoint(s);
    var t := TrimSpace(s);
    TrimSpaceFixpoint(t);
    var l := ToLower(t);
    TrimSpaceFixpoint(l);
    ToLowerIdempotent(t);
    if t != "" {
      LowerKeepsSpace(t[0]);
      LowerKeepsSpace(t[|t| - 1]);
    }
  }

  lemma LowerKeepsSpace(c: char)
    ensures IsSpace(UNICODE.lower(c)) <==> IsSpace(c)
  {
  }

  predicate IsLowerWord(s: string) {
    s != "" && forall i | 0 <= i < |s| :: 'a' <= s[i] <= 'z' || s[i] == '_'
  }

  lemma LowerWordChar(c: char)
    requires 'a' <= c <= 'z' || c == '_'
    ensures UNICODE.lower(c) == c && !IsSpace(c)
  {
    assert c < '\U{80}';
  }

  lemma LowerWordIsLower(s: string)
    requires IsLowerWord(s)
    ensures ToLower(s) == s
  {
    forall i | 0 <= i < |s| ensures ToLower(s)[i] == s[i] {
      LowerWordChar(s[i]);
    }
  }

  /** A lower-case ASCII word is its own folding, so folding into one of them is idempotent. */
  lemma LowerWordFolds(s: string)
    requires IsLowerWord(s)
    ensures Folded(s) == s
  {
    LowerWordChar(s[0]);
    LowerWordChar(s[|s| - 1]);
    LowerWordIsLower(s);
    TrimSpaceFixpoint(s);
  }

  // ---------------------------------------------------------------- decimal numbers

  function Digit(d: nat): char
    requires d < 10
  {
    '0' + d as char
  }

  function Digits(n: nat): (s: string)
    ensures |s| > 0 && forall i | 0 <= i < |s| :: '0' <= s[i] <= '9'
  {
    if n < 10 then [Digit(n)] else Digits(n / 10) + [Digit(n % 10)]
  }

  lemma {:induction false} DigitsInjective(m: nat, n: nat)
    requires Digits(m) == Digits(n)
    ensures m == n
  {
    var s, t := Digits(m), Digits(n);
    assert s[|s| - 1] == t[|t| - 1];
    assert m % 10 == n % 10;
    if m >= 10 && n >= 10 {
      assert Digits(m / 10) == s[..|s| - 1] && Digits(n / 10) == t[..|t| - 1];
      DigitsInjective(m / 10, n / 10);
    } else if m >= 10 {
      assert |s| > 1;
    } else if n >= 10 {
      assert |t| > 1;
    }
  }
}
