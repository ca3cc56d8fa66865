/** The file name of a session recording. */
module RecordingName {
  import opened Text
  import Config

  predicate Kept(c: char) { IsAsciiLetter(c) || IsAsciiDigit(c) || c == '-' || c == '_' || c == '.' }

  predicate Edge(c: char) { c == '.' || c == '_' }

  function Masked(s: string): (r: string)
    ensures |r| == |s| && forall i | 0 <= i < |s| :: r[i] == if Kept(s[i]) then s[i] else '_'
  {
    seq(|s|, i requires 0 <= i < |s| => if Kept(s[i]) then s[i] else '_')
  }

  /** sanitizeFileComponent */
  function Sanitized(value: string): string { Trim(Masked(TrimSpace(value)), Edge) }

  /** sanitizeFileComponent as the builder loop that the server runs. */
  method SanitizeFileComponent(value: string) returns (s: string)
    ensures s == Sanitized(value)
  {
    hide TrimSpace, TrimLeft, TrimRight, Kept;
    var trimmed := TrimSpace(value);
    if trimmed == "" {
      NothingToTrim();
      return "";
    }
    var built := "";
    var i := 0;
    while i < |trimmed|
      invariant i <= |trimmed|
      invariant built == Masked(trimmed)[..i]
    {
      if Kept(trimmed[i]) {
        built := built + [trimmed[i]];
      } else {
        built := built + ['_'];
      }
      i := i + 1;
    }
    assert built == Masked(trimmed);
    return Trim(built, Edge);
  }

  lemma NothingToTrim()
    ensures Trim(Masked(""), Edge) == ""
  {
  }

  /** Only the kept characters come out, and neither end is a dot or an underscore. */
  predicate IsComponent(s: string) {
    && (forall c | c in s :: Kept(c))
    && (s != "" ==> !Edge(s[0]) && !Edge(s[|s| - 1]))
  }

  lemma SanitizedIsComponent(value: string)
    ensures IsComponent(Sanitized(value))
  {
    hide TrimSpace, Trim, TrimLeft, TrimRight;
    var masked := Masked(TrimSpace(value));
    TrimFixpoint(masked, Edge);
    TrimFixpoint(Sanitized(value), Edge);
    forall c | c in Sanitized(value) ensures Kept(c) {
      assert c in masked;
    }
  }

  lemma KeptIsNoSpace(c: char)
    ensures Kept(c) ==> !IsSpace(c)
  {
  }

  /** Sanitising leaves exactly those strings alone; so sanitising twice changes nothing. */
  lemma SanitizedIff(value: string)
    ensures Sanitized(value) == value <==> IsComponent(value)
    ensures Sanitized(Sanitized(value)) == Sanitized(value)
  {
    hide Sanitized, IsComponent;
    if IsComponent(value) {
      ComponentIsFixed(value);
    }
    SanitizedIsComponent(value);
    ComponentIsFixed(Sanitized(value));
  }

  lemma ComponentIsFixed(s: string)
    requires IsComponent(s)
    ensures Sanitized(s) == s
  {
    hide TrimSpace, Trim, TrimLeft, TrimRight, IsSpace, Kept;
    if s == "" {
      TrimSpaceFixpoint(s);
      NothingToTrim();
    } else {
      assert s[0] in s && s[|s| - 1] in s;
      KeptIsNoSpace(s[0]);
      KeptIsNoSpace(s[|s| - 1]);
      TrimSpaceFixpoint(s);
      assert forall i | 0 <= i < |s| :: s[i] in s;
      assert Masked(s) == s;
      TrimFixpoint(s, Edge);
    }
  }

  /** Sanitising keeps a stretch of the trimmed value, with '_' for what may not be kept, and drops only
      dots, underscores and characters that may not be kept around it. */
  lemma SanitizedIs(value: string) returns (a: string, m: string, b: string)
    ensures TrimSpace(value) == a + m + b && |m| == |Sanitized(value)|
    ensures forall i | 0 <= i < |m| :: Sanitized(value)[i] == if Kept(m[i]) then m[i] else '_'
    ensures forall i | 0 <= i < |a| :: Edge(a[i]) || !Kept(a[i])
    ensures forall i | 0 <= i < |b| :: Edge(b[i]) || !Kept(b[i])
  {
    hide TrimSpace, Trim, TrimLeft, TrimRight, Kept;
    var t := TrimSpace(value);
    var masked := Masked(t);
    var left, right := TrimSplits(masked, Edge);
    var k, n := |left|, |Sanitized(value)|;
    a, m, b := t[..k], t[k..k + n], t[k + n..];
    assert t == a + m + b;
    assert masked == left + Sanitized(value) + right;
    forall i | 0 <= i < n ensures Sanitized(value)[i] == if Kept(m[i]) then m[i] else '_' {
      assert Sanitized(value)[i] == masked[k + i];
    }
    forall i | 0 <= i < |a| ensures Edge(a[i]) || !Kept(a[i]) {
      assert left[i] == masked[i];
    }
    forall i | 0 <= i < |b| ensures Edge(b[i]) || !Kept(b[i]) {
      assert right[i] == masked[k + n + i];
    }
  }

  // ---------------------------------------------------------------- the name

  function Extension(format: string): string {
    if Config.NormalizeFormat(format) == Config.SCRIPT then ".log" else ".cast"
  }

  lemma ExtensionIs(format: string)
    ensures Extension(format) == if Folded(format) == "script" then ".log" else ".cast"
  {
    hide Folded;
  }

  /** A part and its separator, left out when the part is empty. */
  function Part(value: string): string {
    if Sanitized(value) == "" then "" else Sanitized(value) + "_"
  }

  /** buildRecordingFileName */
  function FileName(user: string, host: string, port: string, id: string, format: string): string {
    Part(user) + Part(host) + Part(port) + id + Extension(format)
  }

  lemma TailsEqual(a: string, b: string, s: string, t: string)
    requires a + s == b + t && |s| == |t|
    ensures s == t
  {
    assert (a + s)[|a|..] == s && (b + t)[|b|..] == t;
  }

  /** Recordings with equal names have equal extensions and, if their ids are equally long, equal ids:
      different ids never share a file, whatever the targets are called. */
  lemma NamesTellIdsApart(u: string, h: string, p: string, id: string, f: string, v: string, k: string, q: string, other: string, g: string)
    requires FileName(u, h, p, id, f) == FileName(v, k, q, other, g)
    ensures Extension(f) == Extension(g)
    ensures |id| == |other| ==> id == other
  {
    hide Part, Config.NormalizeFormat;
    var s, t := Part(u) + Part(h) + Part(p), Part(v) + Part(k) + Part(q);
    var name := FileName(u, h, p, id, f);
    assert name == s + id + Extension(f) == t + other + Extension(g);
    assert name[|name| - 1] == Extension(f)[|Extension(f)| - 1] == Extension(g)[|Extension(g)| - 1];
    assert (s + id) == name[..|name| - |Extension(f)|] == t + other;
    if |id| == |other| {
      TailsEqual(s, t, id, other);
    }
  }

  lemma PartIsKept(value: string)
    ensures forall c | c in Part(value) :: Kept(c)
  {
    hide Sanitized, Kept;
    SanitizedIsComponent(value);
    UnderscoreIsKept();
  }

  lemma UnderscoreIsKept()
    ensures Kept('_')
  {
  }

  /** With an id of kept characters the name is a plain one: no separator or other character that
      could lead out of the recordings directory, and it is not made of dots alone. */
  lemma NameIsPlain(user: string, host: string, port: string, id: string, format: string)
    requires forall c | c in id :: Kept(c)
    ensures forall c | c in FileName(user, host, port, id, format) :: Kept(c) && c != '/' && c != '\\'
    ensures exists c :: c in FileName(user, host, port, id, format) && c != '.'
  {
    hide Part, Config.NormalizeFormat;
    PartIsKept(user);
    PartIsKept(host);
    PartIsKept(port);
    var name := FileName(user, host, port, id, format);
    assert name[|name| - 1] in name && name[|name| - 1] != '.';
  }

  /** strings.Join with "_". */
  function Joined(parts: seq<string>): string {
    if parts == [] then "" else if |parts| == 1 then parts[0] else parts[0] + "_" + Joined(parts[1..])
  }

  lemma {:induction false} JoinedAppend(parts: seq<string>, last: string)
    ensures Joined(parts + [last]) == if parts == [] then last else Joined(parts) + "_" + last
  {
    if parts == [] {
    } else if |parts| == 1 {
      assert (parts + [last])[1..] == [last];
    } else {
      assert (parts + [last])[1..] == parts[1..] + [last];
      JoinedAppend(parts[1..], last);
    }
  }

  /** buildRecordingFileName as the server builds it, part by part. */
  method BuildRecordingFileName(user: string, host: string, port: string, id: string, format: string) returns (name: string)
    ensures name == FileName(user, host, port, id, format)
  {
    hide Sanitized, Extension, Joined;
    var parts: seq<string> := [];
    ghost var text := "";
    var component := SanitizeFileComponent(user);
    if component != "" {
      JoinedAppend(parts, component);
      parts := parts + [component];
    }
    assert (parts == [] && Part(user) == "") || (parts != [] && Joined(parts) + "_" == Part(user));
    text := Part(user);
    component := SanitizeFileComponent(host);
    if component != "" {
      JoinedAppend(parts, component);
      parts := parts + [component];
    }
    assert (parts == [] && text + Part(host) == "") || (parts != [] && Joined(parts) + "_" == text + Part(host));
    text := text + Part(host);
    component := SanitizeFileComponent(port);
    if component != "" {
      JoinedAppend(parts, component);
      parts := parts + [component];
    }
    assert (parts == [] && text + Part(port) == "") || (parts != [] && Joined(parts) + "_" == text + Part(port));
    JoinedAppend(parts, id);
    parts := parts + [id];
    return Joined(parts) + Extension(format);
  }

  /** A part that is there and has no underscore of its own can be read off a name. */
  predicate IsPlainPart(value: string) { Sanitized(value) != "" && '_' !in Sanitized(value) }

  lemma FirstPart(s: string, t: string, rest: string, more: string)
    requires '_' !in s && '_' !in t && s + "_" + rest == t + "_" + more
    ensures s == t && rest == more
  {
    var a, b := s + "_" + rest, t + "_" + more;
    assert a[|s|] == '_' && b[|t|] == '_';
    assert forall i | 0 <= i < |s| :: a[i] == s[i];
    assert forall i | 0 <= i < |t| :: b[i] == t[i];
    assert |s| == |t|;
    assert s == a[..|s|] && t == b[..|t|];
    assert rest == a[|s| + 1..] && more == b[|t| + 1..];
  }

  /** Names tell targets apart: with plain parts, equal names come from equal sanitised users, hosts and
      ports, in this order, and from equal ids. */
  lemma NamesTellTargetsApart(u: string, h: string, p: string, id: string, v: string, k: string, q: string, other: string, format: string)
    requires IsPlainPart(u) && IsPlainPart(h) && IsPlainPart(p) && IsPlainPart(v) && IsPlainPart(k) && IsPlainPart(q)
    requires FileName(u, h, p, id, format) == FileName(v, k, q, other, format)
    ensures Sanitized(u) == Sanitized(v) && Sanitized(h) == Sanitized(k) && Sanitized(p) == Sanitized(q) && id == other
  {
    hide Sanitized, Extension, FileName, Part;
    var ext := Extension(format);
    NameFromFront(u, h, p, id, format);
    NameFromFront(v, k, q, other, format);
    var a, b := Sanitized(p) + "_" + (id + ext), Sanitized(q) + "_" + (other + ext);
    FirstPart(Sanitized(u), Sanitized(v), Sanitized(h) + "_" + a, Sanitized(k) + "_" + b);
    FirstPart(Sanitized(h), Sanitized(k), a, b);
    FirstPart(Sanitized(p), Sanitized(q), id + ext, other + ext);
    assert (id + ext)[..|id + ext| - |ext|] == id && (other + ext)[..|other + ext| - |ext|] == other;
  }

  lemma NameFromFront(u: string, h: string, p: string, id: string, format: string)
    requires IsPlainPart(u) && IsPlainPart(h) && IsPlainPart(p)
    ensures FileName(u, h, p, id, format)
              == Sanitized(u) + "_" + (Sanitized(h) + "_" + (Sanitized(p) + "_" + (id + Extension(format))))
  {
    hide Sanitized, Extension;
  }
}
