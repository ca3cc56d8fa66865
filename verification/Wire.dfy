/** The byte layouts of channel requests (sections 6.2, 6.4, 6.5 and 6.7 of RFC 4254) and the
    hand-written decoders for them. Lengths are uint32 and their sums wrap, as in Go. */
module Wire {
  import opened Text

  type byte = b: int | 0 <= b < 256
  type bytes = seq<byte>

  const WORD: int := 0x1_0000_0000
  type uint32 = x: int | 0 <= x < 0x1_0000_0000

  // ---------------------------------------------------------------- the layouts

  function EncodeUint32(x: uint32): bytes {
    [x / 0x100 / 0x100 / 0x100, x / 0x100 / 0x100 % 0x100, x / 0x100 % 0x100, x % 0x100]
  }

  function EncodeString(s: bytes): bytes
    requires |s| < WORD
  {
    EncodeUint32(|s|) + s
  }

  ghost predicate EncodesEnv(p: bytes, name: bytes, value: bytes) {
    |name| < WORD && |value| < WORD && EncodeString(name) + EncodeString(value) <= p
  }

  ghost predicate EncodesCommand(p: bytes, command: bytes) {
    |command| < WORD && EncodeString(command) <= p
  }

  ghost predicate EncodesPty(p: bytes, term: bytes, cols: uint32, rows: uint32) {
    |term| < WORD && EncodeString(term) + EncodeUint32(cols) + EncodeUint32(rows) <= p
  }

  ghost predicate EncodesWindow(p: bytes, cols: uint32, rows: uint32) {
    EncodeUint32(cols) + EncodeUint32(rows) <= p
  }

  // ---------------------------------------------------------------- Go's operations

  function Word(a: byte, b: byte, c: byte, d: byte): uint32 {
    ((a as int * 0x100 + b) * 0x100 + c) * 0x100 + d
  }

  /** binary.BigEndian.Uint32 of the four bytes at i. */
  function Uint32At(p: bytes, i: nat): uint32
    requires i + 4 <= |p|
  {
    Word(p[i], p[i + 1], p[i + 2], p[i + 3])
  }

  function Add32(a: uint32, b: uint32): uint32 { (a + b) % WORD }

  /** A slice expression; None is the run-time panic for bounds out of range. */
  function Slice(p: bytes, low: int, high: int): Option<bytes> {
    if 0 <= low <= high <= |p| then Some(p[low..high]) else None
  }

  // ---------------------------------------------------------------- the decoders

  datatype EnvRequest = EnvPanic | EnvRefused | Env(name: bytes, value: bytes)

  function DecodeEnv(p: bytes): EnvRequest {
    if |p| < 8 then EnvRefused
    else
      var nameLen := Uint32At(p, 0);
      if nameLen > |p| - 8 then EnvRefused
      else
        var name := Slice(p, 4, Add32(4, nameLen));
        var word := Slice(p, Add32(4, nameLen), Add32(8, nameLen));
        if name.None? || word.None? || |word.value| < 4 then EnvPanic
        else
          var valueLen := Uint32At(word.value, 0);
          if valueLen > |p| - Add32(8, nameLen) then EnvRefused
          else
            var value := Slice(p, Add32(8, nameLen), Add32(Add32(8, nameLen), valueLen));
            if value.None? then EnvPanic else Env(name.value, value.value)
  }

  /** The exec branch of the request loop: a payload that does not hold its command leaves the
      command empty. None is the run-time panic. */
  function DecodeCommand(p: bytes): Option<bytes> {
    if |p| <= 4 then Some([])
    else
      var len := Uint32At(p, 0);
      if |p| < 4 + len then Some([]) else Slice(p, 4, Add32(4, len))
  }

  datatype PtyRequest = PtyRefused | Pty(term: bytes, cols: uint32, rows: uint32)

  function DecodePty(p: bytes): PtyRequest {
    if |p| < 4 then PtyRefused
    else
      var termLen := Uint32At(p, 0);
      if |p| < 4 + termLen + 8 then PtyRefused
      else Pty(p[4..4 + termLen], Uint32At(p, 4 + termLen), Uint32At(p, 8 + termLen))
  }

  /** A short payload keeps the size the loop had. */
  function DecodeWindow(p: bytes, cols: int, rows: int): (int, int) {
    if |p| >= 8 then (Uint32At(p, 0), Uint32At(p, 4)) else (cols, rows)
  }

  // ---------------------------------------------------------------- words and strings

  lemma Shift(high: nat, low: byte)
    ensures (high * 0x100 + low) / 0x100 == high && (high * 0x100 + low) % 0x100 == low
  {
  }

  lemma WordBytes(a: byte, b: byte, c: byte, d: byte)
    ensures EncodeUint32(Word(a, b, c, d)) == [a, b, c, d]
  {
    Shift((a as int * 0x100 + b) * 0x100 + c, d);
    Shift(a as int * 0x100 + b, c);
    Shift(a, b);
  }

  lemma WordOfBytes(x: uint32)
    ensures var e := EncodeUint32(x); Word(e[0], e[1], e[2], e[3]) == x
  {
  }

  /** Four bytes hold a word exactly when they are its encoding. */
  lemma Uint32AtIff(p: bytes, i: nat, x: uint32)
    requires i + 4 <= |p|
    ensures Uint32At(p, i) == x <==> p[i..i + 4] == EncodeUint32(x)
  {
    WordBytes(p[i], p[i + 1], p[i + 2], p[i + 3]);
    WordOfBytes(x);
    assert p[i..i + 4] == [p[i], p[i + 1], p[i + 2], p[i + 3]];
  }

  /** A length-prefixed string stands at i exactly when the word there is its length and it follows. */
  lemma StringAtIff(p: bytes, i: nat, s: bytes)
    requires |s| < WORD && i + 4 <= |p|
    ensures (i + 4 + |s| <= |p| && p[i..i + 4 + |s|] == EncodeString(s)) <==>
              Uint32At(p, i) == |s| && i + 4 + |s| <= |p| && p[i + 4..i + 4 + |s|] == s
  {
    Uint32AtIff(p, i, |s|);
    if i + 4 + |s| <= |p| {
      var q := p[i..i + 4 + |s|];
      assert q == p[i..i + 4] + p[i + 4..i + 4 + |s|];
      assert EncodeString(s)[..4] == EncodeUint32(|s|) && EncodeString(s)[4..] == s;
      if q == EncodeString(s) {
        assert p[i..i + 4] == q[..4] && p[i + 4..i + 4 + |s|] == q[4..];
      }
    }
  }

  // ---------------------------------------------------------------- env

  lemma Add32Fits(a: uint32, b: uint32)
    requires a + b < WORD
    ensures Add32(a, b) == a + b
  {
  }

  /** Below 4 GiB no sum wraps, and the decoder is plain arithmetic. */
  lemma DecodeEnvFits(p: bytes)
    requires 8 <= |p| < WORD && Uint32At(p, 0) <= |p| - 8
    ensures var n := Uint32At(p, 0);
            var v := Uint32At(p, 4 + n);
            DecodeEnv(p) == if v > |p| - (8 + n) then EnvRefused else Env(p[4..4 + n], p[8 + n..8 + n + v])
  {
    var n := Uint32At(p, 0);
    var v := Uint32At(p, 4 + n);
    assert Uint32At(p[4 + n..8 + n], 0) == v;
    Add32Fits(4, n);
    Add32Fits(8, n);
    hide Add32, Uint32At;
    if v <= |p| - (8 + n) {
      Add32Fits(8 + n, v);
    }
  }

  /** A payload starts with two texts exactly when it starts with the first and then has the second. */
  lemma PrefixOfTwo(p: bytes, e: bytes, f: bytes)
    ensures e + f <= p <==> |e| + |f| <= |p| && p[0..|e|] == e && p[|e|..|e| + |f|] == f
  {
    if |e| + |f| <= |p| {
      assert p[..|e| + |f|] == p[0..|e|] + p[|e|..|e| + |f|];
      if e + f <= p {
        assert p[0..|e|] == (e + f)[..|e|] && p[|e|..|e| + |f|] == (e + f)[|e|..];
      }
    }
  }

  lemma EnvPrefixIff(p: bytes, name: bytes, value: bytes)
    requires |name| < WORD && |value| < WORD
    ensures EncodesEnv(p, name, value) <==>
              && 8 + |name| + |value| <= |p|
              && Uint32At(p, 0) == |name| && p[4..4 + |name|] == name
              && Uint32At(p, 4 + |name|) == |value| && p[8 + |name|..8 + |name| + |value|] == value
  {
    var e, f := EncodeString(name), EncodeString(value);
    assert |e| == 4 + |name| && |f| == 4 + |value|;
    PrefixOfTwo(p, e, f);
    hide EncodeString, Uint32At;
    if 8 + |name| + |value| <= |p| {
      StringAtIff(p, 0, name);
      StringAtIff(p, |e|, value);
    }
  }

  /** For every payload below 4 GiB: the decoder answers (name, value) exactly when the payload
      starts with their encoding, so it refuses exactly when it starts with none. */
  lemma DecodeEnvInverts(p: bytes, name: bytes, value: bytes)
    requires |p| < WORD
    ensures DecodeEnv(p) == Env(name, value) <==> EncodesEnv(p, name, value)
    ensures DecodeEnv(p) != EnvPanic
  {
    if 8 <= |p| && Uint32At(p, 0) <= |p| - 8 {
      DecodeEnvFits(p);
    }
    if |name| < WORD && |value| < WORD {
      EnvPrefixIff(p, name, value);
    }
  }

  /** A payload whose name length makes 8 + nameLen wrap to zero. */
  function WrappingEnv(length: nat): bytes
    requires length >= WORD
  {
    EncodeUint32(0xFFFF_FFF8) + seq(length - 4, i => 0)
  }

  /** The env decoder is free of run-time panics on every payload of a length exactly when that
      length is below 4 GiB; SSH packets are far shorter. */
  lemma DecodeEnvTotalIff(length: nat)
    ensures (forall p: bytes | |p| == length :: DecodeEnv(p) != EnvPanic) <==> length < WORD
  {
    if length < WORD {
      forall p: bytes | |p| == length ensures DecodeEnv(p) != EnvPanic {
        DecodeEnvInverts(p, [], []);
      }
    } else {
      var p := WrappingEnv(length);
      assert p[0..4] == EncodeUint32(0xFFFF_FFF8);
      Uint32AtIff(p, 0, 0xFFFF_FFF8);
      assert DecodeEnv(p) == EnvPanic;
    }
  }

  // ---------------------------------------------------------------- exec

  /** A non-empty command is decoded exactly when the payload starts with its encoding, and a
      payload that holds no command decodes to the empty one. */
  lemma DecodeCommandInverts(p: bytes, command: bytes)
    requires |p| < WORD
    ensures DecodeCommand(p).Some?
    ensures EncodesCommand(p, command) ==> DecodeCommand(p) == Some(command)
    ensures DecodeCommand(p) == Some(command) && command != [] ==> EncodesCommand(p, command)
  {
    if |p| >= 4 && |command| < WORD {
      StringAtIff(p, 0, command);
      if 4 + |command| <= |p| {
        assert p[..4 + |command|] == p[0..4 + |command|];
      }
    }
  }

  lemma DecodeCommandTotalIff(length: nat)
    ensures (forall p: bytes | |p| == length :: DecodeCommand(p).Some?) <==> length < WORD
  {
    if length < WORD {
      forall p: bytes | |p| == length ensures DecodeCommand(p).Some? {
        DecodeCommandInverts(p, []);
      }
    } else {
      var p: bytes := EncodeUint32(0xFFFF_FFFC) + seq(length - 4, i => 0);
      assert p[0..4] == EncodeUint32(0xFFFF_FFFC);
      Uint32AtIff(p, 0, 0xFFFF_FFFC);
      assert DecodeCommand(p).None?;
    }
  }

  // ---------------------------------------------------------------- pty-req and window-change

  lemma PtyPrefixIff(p: bytes, term: bytes, cols: uint32, rows: uint32)
    requires |term| < WORD
    ensures EncodesPty(p, term, cols, rows) <==>
              && |term| + 12 <= |p|
              && Uint32At(p, 0) == |term| && p[4..4 + |term|] == term
              && Uint32At(p, 4 + |term|) == cols && Uint32At(p, 8 + |term|) == rows
  {
    var n := |term|;
    var e, c, r := EncodeString(term), EncodeUint32(cols), EncodeUint32(rows);
    assert |e| == 4 + n && |c| == 4 && |r| == 4;
    PrefixOfTwo(p, e + c, r);
    PrefixOfTwo(p, e, c);
    assert n + 12 <= |p| ==> p[..|e + c|] == p[0..|e + c|];
    hide EncodeString, EncodeUint32, Uint32At;
    if n + 12 <= |p| {
      StringAtIff(p, 0, term);
      Uint32AtIff(p, 4 + n, cols);
      Uint32AtIff(p, 8 + n, rows);
    }
  }

  /** For every payload: TERM, columns and rows come out exactly as they were encoded, whatever
      bytes follow, and a payload that starts with no such encoding is refused. */
  lemma DecodePtyInverts(p: bytes, term: bytes, cols: uint32, rows: uint32)
    ensures DecodePty(p) == Pty(term, cols, rows) <==> EncodesPty(p, term, cols, rows)
  {
    hide EncodeString, EncodeUint32, Uint32At;
    if |term| < WORD {
      PtyPrefixIff(p, term, cols, rows);
      hide EncodesPty;
    }
  }

  lemma DecodeWindowInverts(p: bytes, cols: uint32, rows: uint32, oldCols: int, oldRows: int)
    ensures EncodesWindow(p, cols, rows) ==> DecodeWindow(p, oldCols, oldRows) == (cols, rows)
    ensures |p| < 8 ==> DecodeWindow(p, oldCols, oldRows) == (oldCols, oldRows)
  {
    if EncodesWindow(p, cols, rows) {
      var q := EncodeUint32(cols) + EncodeUint32(rows);
      assert p[0..4] == q[..4] && p[4..8] == q[4..];
      Uint32AtIff(p, 0, cols);
      Uint32AtIff(p, 4, rows);
    }
  }
}
