/** Content-Disposition headers for file names (worker/src/index.ts, pc-api-python/main.py): percent-encoding of section
    3.2.1 of RFC 5987, and what a parser for section 4.1 of RFC 6266 recovers. JavaScript strings are sequences of
    16-bit code units; header text is ASCII. */
module Headers {
  import opened Basics

  type Unit = n: nat | n < 0x1_0000
  type Byte = n: nat | n < 0x100

  // ---------- percent-encoding of bytes

  function Hex(n: nat): char
    requires n < 16
  {
    "0123456789ABCDEF"[n]
  }

  function HexValue(c: char): Option<nat> {
    if '0' <= c <= '9' then Some(c as int - '0' as int)
    else if 'A' <= c <= 'F' then Some(c as int - 'A' as int + 10)
    else if 'a' <= c <= 'f' then Some(c as int - 'a' as int + 10)
    else None
  }

  function Percent(b: Byte): string {
    ['%', Hex(b / 16), Hex(b % 16)]
  }

  predicate IsAlphanumeric(c: char) {
    '0' <= c <= '9' || 'A' <= c <= 'Z' || 'a' <= c <= 'z'
  }

  /** attr-char of section 3.2.1 of RFC 5987. */
  predicate IsAttrChar(c: char) {
    IsAlphanumeric(c) || c in "!#$&+-.^_`|~"
  }

  function EncodedByte(b: Byte, plain: char -> bool): string {
    if b < 128 && plain(b as char) then [b as char] else Percent(b)
  }

  function PercentEncode(bytes: seq<Byte>, plain: char -> bool): string {
    if bytes == [] then "" else EncodedByte(bytes[0], plain) + PercentEncode(bytes[1..], plain)
  }

  function PercentDecode(s: string): Option<seq<Byte>> {
    if s == "" then Some([])
    else if s[0] == '%' then
      if |s| < 3 || HexValue(s[1]).None? || HexValue(s[2]).None? then None
      else
        match PercentDecode(s[3..])
        case None => None
        case Some(rest) => Some([HexValue(s[1]).value * 16 + HexValue(s[2]).value] + rest)
    else if s[0] as int >= 128 then None
    else
      match PercentDecode(s[1..])
      case None => None
      case Some(rest) => Some([s[0] as int] + rest)
  }

  /** value-chars of section 3.2.1 of RFC 5987: attr-char or percent-encoded octets. */
  predicate IsValueChars(s: string) {
    s == "" ||
    (if s[0] == '%' then |s| >= 3 && HexValue(s[1]).Some? && HexValue(s[2]).Some? && IsValueChars(s[3..])
     else IsAttrChar(s[0]) && IsValueChars(s[1..]))
  }

  lemma HexRoundTrip(n: nat)
    requires n < 16
    ensures HexValue(Hex(n)) == Some(n)
  {
  }

  lemma PercentByte(b: Byte, rest: string)
    ensures |Percent(b)| == 3 && (Percent(b) + rest)[3..] == rest && (Percent(b) + rest)[0] == '%'
    ensures HexValue((Percent(b) + rest)[1]) == Some(b / 16) && HexValue((Percent(b) + rest)[2]) == Some(b % 16)
  {
    HexRoundTrip(b / 16);
    HexRoundTrip(b % 16);
    hide Hex, HexValue;
  }

  lemma EncodedByteDecodes(b: Byte, plain: char -> bool, rest: string)
    requires forall c :: plain(c) ==> IsAttrChar(c)
    ensures PercentDecode(EncodedByte(b, plain) + rest) ==
            match PercentDecode(rest) case None => None case Some(bytes) => Some([b] + bytes)
    ensures IsValueChars(EncodedByte(b, plain) + rest) <==> IsValueChars(rest)
  {
    hide Percent, HexValue;
    PercentByte(b, rest);
    var code := EncodedByte(b, plain);
    if b < 128 && plain(b as char) {
      assert code[0] != '%' && (code + rest)[1..] == rest;
    }
  }

  /** Decoding gives the bytes back, and the value uses only what the RFC allows. */
  lemma {:induction false} PercentRoundTrip(bytes: seq<Byte>, plain: char -> bool)
    requires forall c :: plain(c) ==> IsAttrChar(c)
    ensures PercentDecode(PercentEncode(bytes, plain)) == Some(bytes)
    ensures IsValueChars(PercentEncode(bytes, plain))
  {
    if bytes == [] {
      assert PercentEncode(bytes, plain) == "";
    } else {
      hide PercentDecode, IsValueChars, EncodedByte, IsAttrChar;
      PercentRoundTrip(bytes[1..], plain);
      EncodedByteDecodes(bytes[0], plain, PercentEncode(bytes[1..], plain));
      assert bytes == [bytes[0]] + bytes[1..];
    }
  }

  // ---------- what a header parser makes of it

  datatype Param = Param(name: string, quoted: bool, value: string)
  datatype Disposition = Disposition(kind: string, params: seq<Param>)

  function IndexOf(s: string, c: char): (n: nat)
    ensures n <= |s| && (n < |s| ==> s[n] == c)
  {
    if s == "" || s[0] == c then 0 else 1 + IndexOf(s[1..], c)
  }

  /** The text of a quoted-string after its opening quote, and what follows the closing one. */
  function ReadQuoted(s: string): (r: Option<(string, string)>)
    ensures r.Some? ==> |r.value.1| < |s|
  {
    if s == "" then None
    else if s[0] == '"' then Some(("", s[1..]))
    else if s[0] == '\\' then
      if |s| == 1 then None
      else
        match ReadQuoted(s[2..])
        case None => None
        case Some(p) => Some(([s[1]] + p.0, p.1))
    else
      match ReadQuoted(s[1..])
      case None => None
      case Some(p) => Some(([s[0]] + p.0, p.1))
  }

  function SkipSpaces(s: string): (r: string)
    ensures |r| <= |s|
  {
    if s != "" && s[0] == ' ' then SkipSpaces(s[1..]) else s
  }

  /** One parameter and what follows it. */
  function ParseParam(s: string): (r: Option<(Param, string)>)
    ensures r.Some? ==> |r.value.1| < |s|
  {
    var n := IndexOf(s, '=');
    if n == |s| then None
    else
      var v := s[n + 1..];
      if v != "" && v[0] == '"' then
        match ReadQuoted(v[1..])
        case None => None
        case Some(p) => Some((Param(s[..n], true, p.0), p.1))
      else
        var m := IndexOf(v, ';');
        Some((Param(s[..n], false, v[..m]), v[m..]))
  }

  function ParseParams(s: string): Option<seq<Param>>
    decreases |s|
  {
    if s == "" then Some([])
    else if s[0] != ';' then None
    else
      match ParseParam(SkipSpaces(s[1..]))
      case None => None
      case Some(p) =>
        match ParseParams(p.1)
        case None => None
        case Some(rest) => Some([p.0] + rest)
  }

  function ParseDisposition(s: string): Option<Disposition> {
    var n := IndexOf(s, ';');
    match ParseParams(s[n..])
    case None => None
    case Some(params) => Some(Disposition(s[..n], params))
  }

  /** Free of what would end or escape a quoted-string, and printable ASCII. */
  predicate IsClean(s: string) {
    forall i :: 0 <= i < |s| ==> s[i] != '"' && s[i] != '\\' && ' ' <= s[i] <= '~'
  }

  lemma {:induction false} IndexOfFirst(a: string, c: char, b: string)
    requires c !in a
    ensures IndexOf(a + [c] + b, c) == |a|
  {
    if a != "" {
      assert (a + [c] + b)[1..] == a[1..] + [c] + b;
      assert a[0] in a;
      IndexOfFirst(a[1..], c, b);
    }
  }

  lemma {:induction false} IndexOfNone(a: string, c: char)
    requires c !in a
    ensures IndexOf(a, c) == |a|
  {
    if a != "" {
      assert a[0] in a;
      IndexOfNone(a[1..], c);
    }
  }

  lemma {:induction false} ReadQuotedClean(q: string, rest: string)
    requires IsClean(q)
    ensures ReadQuoted(q + ['"'] + rest) == Some((q, rest))
  {
    var s := q + ['"'] + rest;
    if q == "" {
      assert s[0] == '"' && s[1..] == rest;
    } else {
      assert s[1..] == q[1..] + ['"'] + rest;
      ReadQuotedClean(q[1..], rest);
      assert s[0] == q[0] && q == [q[0]] + q[1..];
    }
  }

  lemma QuotedParam(name: string, q: string, rest: string)
    requires '=' !in name && IsClean(q)
    ensures ParseParam(name + ['='] + (['"'] + q + ['"'] + rest)) == Some((Param(name, true, q), rest))
  {
    var v := ['"'] + q + ['"'] + rest;
    IndexOfFirst(name, '=', v);
    var s := name + ['='] + v;
    assert s[..|name|] == name && s[|name| + 1..] == v;
    assert v[1..] == q + ['"'] + rest;
    ReadQuotedClean(q, rest);
    hide IndexOf, ReadQuoted;
  }

  lemma TokenParam(name: string, v: string)
    requires '=' !in name && v != "" && v[0] != '"' && ';' !in v
    ensures ParseParam(name + ['='] + v) == Some((Param(name, false, v), ""))
  {
    IndexOfFirst(name, '=', v);
    IndexOfNone(v, ';');
    var s := name + ['='] + v;
    assert s[..|name|] == name && s[|name| + 1..] == v;
    assert v[..|v|] == v && v[|v|..] == "";
    hide IndexOf, ReadQuoted;
  }

  const EXT_PREFIX: string := "UTF-8''"

  function HeaderText(kind: string, quoted: string, encoded: string): string {
    kind + "; filename=\"" + quoted + "\"; filename*=UTF-8''" + encoded
  }

  lemma SpaceSkipped(s: string)
    requires s != "" && s[0] != ' '
    ensures SkipSpaces([' '] + s) == s
  {
    assert ([' '] + s)[1..] == s;
  }

  lemma OneMoreParam(s: string, p: Param, rest: string)
    requires s != "" && s[0] != ' ' && ParseParam(s) == Some((p, rest))
    ensures ParseParams([';'] + ([' '] + s)) == match ParseParams(rest) case None => None case Some(ps) => Some([p] + ps)
  {
    var t := [';'] + ([' '] + s);
    assert t[1..] == [' '] + s;
    SpaceSkipped(s);
    hide ParseParam, SkipSpaces;
  }

  function FirstParam(quoted: string, second: string): string {
    "filename" + ['='] + (['"'] + quoted + ['"'] + second)
  }

  function SecondParam(encoded: string): string {
    "filename*" + ['='] + (EXT_PREFIX + encoded)
  }

  lemma HeaderPieces(kind: string, quoted: string, encoded: string)
    ensures HeaderText(kind, quoted, encoded) ==
            kind + [';'] + ([' '] + FirstParam(quoted, [';'] + ([' '] + SecondParam(encoded))))
  {
    var a, b := "; filename=\"", "\"; filename*=UTF-8''";
    var a', b' := [';'] + ([' '] + ("filename" + ['='] + ['"'])), ['"'] + ([';'] + ([' '] + ("filename*" + ['='] + EXT_PREFIX)));
    assert a == a';
    assert b == b';
    assert HeaderText(kind, quoted, encoded) == kind + (a + (quoted + (b + encoded)));
    assert b' + encoded == ['"'] + ([';'] + ([' '] + SecondParam(encoded)));
    assert a' + (quoted + (b' + encoded)) ==
           [';'] + ([' '] + FirstParam(quoted, [';'] + ([' '] + SecondParam(encoded))));
  }

  lemma ParsesPieces(kind: string, first: string)
    requires ';' !in kind
    ensures ParseDisposition(kind + [';'] + ([' '] + first)) ==
            match ParseParams([';'] + ([' '] + first)) case None => None case Some(ps) => Some(Disposition(kind, ps))
  {
    IndexOfFirst(kind, ';', [' '] + first);
    var s := kind + [';'] + ([' '] + first);
    assert s[..|kind|] == kind && s[|kind|..] == [';'] + ([' '] + first);
    hide IndexOf, ParseParams;
  }

  /** A parser recovers the kind and both parameters exactly. */
  lemma HeaderParses(kind: string, quoted: string, encoded: string)
    requires ';' !in kind && IsClean(quoted) && ';' !in encoded
    ensures ParseDisposition(HeaderText(kind, quoted, encoded)) ==
            Some(Disposition(kind, [Param("filename", true, quoted), Param("filename*", false, EXT_PREFIX + encoded)]))
  {
    hide IndexOf, ParseParam, ParseParams, IsClean, ParseDisposition, HeaderText;
    var ext := SecondParam(encoded);
    var second := [';'] + ([' '] + ext);
    var first := FirstParam(quoted, second);
    HeaderPieces(kind, quoted, encoded);
    ParsesPieces(kind, first);
    QuotedParam("filename", quoted, second);
    TokenParam("filename*", EXT_PREFIX + encoded);
    OneMoreParam(ext, Param("filename*", false, EXT_PREFIX + encoded), "");
    OneMoreParam(first, Param("filename", true, quoted), second);
    NoParams();
    var p, q := Param("filename", true, quoted), Param("filename*", false, EXT_PREFIX + encoded);
    assert [p] + ([q] + []) == [p, q];
  }

  lemma NoParams()
    ensures ParseParams("") == Some([])
  {
  }

  // ---------- the Worker's side: UTF-16 strings

  predicate IsHigh(u: Unit) {
    0xD800 <= u < 0xDC00
  }

  predicate IsLow(u: Unit) {
    0xDC00 <= u < 0xE000
  }

  /** Length in units of the code point at the front; 0 for a lone surrogate. */
  function FrontLength(s: seq<Unit>): (n: nat)
    requires s != []
    ensures n <= |s|
  {
    if IsHigh(s[0]) then (if |s| > 1 && IsLow(s[1]) then 2 else 0)
    else if IsLow(s[0]) then 0
    else 1
  }

  function FrontPoint(s: seq<Unit>): (p: nat)
    requires s != [] && FrontLength(s) > 0
    ensures p < 0x11_0000
  {
    var u: nat := s[0];
    if FrontLength(s) == 1 then u
    else
      var v: nat := s[1];
      0x1_0000 + (u - 0xD800) * 0x400 + (v - 0xDC00)
  }

  /** The UTF-8 form of a code point. */
  function Utf8(p: nat): seq<Byte>
    requires p < 0x11_0000
  {
    if p < 0x80 then [p]
    else if p < 0x800 then [0xC0 + p / 0x40, 0x80 + p % 0x40]
    else if p < 0x1_0000 then [0xE0 + p / 0x1000, 0x80 + p / 0x40 % 0x40, 0x80 + p % 0x40]
    else [0xF0 + p / 0x4_0000, 0x80 + p / 0x1000 % 0x40, 0x80 + p / 0x40 % 0x40, 0x80 + p % 0x40]
  }

  /** The UTF-8 form of a string; none when it has a lone surrogate. */
  function Utf8Of(s: seq<Unit>): Option<seq<Byte>> {
    if s == [] then Some([])
    else
      var n := FrontLength(s);
      if n == 0 then None
      else
        match Utf8Of(s[n..])
        case None => None
        case Some(rest) => Some(Utf8(FrontPoint(s)) + rest)
  }

  /** What encodeURIComponent leaves as it is. */
  predicate IsUriMark(c: char) {
    IsAlphanumeric(c) || c in "-_.!~*'()"
  }

  function PercentAll(bytes: seq<Byte>): string {
    PercentEncode(bytes, (c: char) => false)
  }

  /** encodeURIComponent; none where it throws. */
  function EncodeUriComponent(s: seq<Unit>): Option<string> {
    if s == [] then Some("")
    else
      var n := FrontLength(s);
      if n == 0 then None
      else
        match EncodeUriComponent(s[n..])
        case None => None
        case Some(rest) =>
          if s[0] < 128 && IsUriMark(s[0] as char) then Some([s[0] as char] + rest)
          else Some(PercentAll(Utf8(FrontPoint(s))) + rest)
  }

  /** The two replacements after it. */
  function EscapeMark(c: char): string {
    if c == '\'' then "%27" else if c == '(' then "%28" else if c == ')' then "%29" else if c == '*' then "%2A" else [c]
  }

  function EscapeMarks(s: string): string {
    if s == "" then "" else EscapeMark(s[0]) + EscapeMarks(s[1..])
  }

  function EncodeRfc5987(s: seq<Unit>): Option<string> {
    match EncodeUriComponent(s)
    case None => None
    case Some(encoded) => Some(EscapeMarks(encoded))
  }

  /** The characters that both stages together leave as they are. */
  predicate IsKept(c: char) {
    IsUriMark(c) && c !in "*'()"
  }

  lemma {:induction false} EscapeAppend(a: string, b: string)
    ensures EscapeMarks(a + b) == EscapeMarks(a) + EscapeMarks(b)
  {
    if a == "" {
      assert a + b == b;
    } else {
      assert (a + b)[1..] == a[1..] + b;
      EscapeAppend(a[1..], b);
    }
  }

  lemma {:induction false} EncodeAppend(a: seq<Byte>, b: seq<Byte>, plain: char -> bool)
    ensures PercentEncode(a + b, plain) == PercentEncode(a, plain) + PercentEncode(b, plain)
  {
    if a == [] {
      assert a + b == b;
    } else {
      assert (a + b)[1..] == a[1..] + b;
      EncodeAppend(a[1..], b, plain);
    }
  }

  predicate NoMarks(s: string) {
    forall i :: 0 <= i < |s| ==> s[i] !in "*'()"
  }

  lemma {:induction false} NothingToEscape(s: string)
    requires NoMarks(s)
    ensures EscapeMarks(s) == s
  {
    if s != "" {
      NothingToEscape(s[1..]);
      assert s == [s[0]] + s[1..];
    }
  }

  /** Bytes outside ASCII, and ASCII that is not kept, are encoded alike by both. */
  lemma {:induction false} AllEncodedAlike(bytes: seq<Byte>)
    requires forall i :: 0 <= i < |bytes| ==> bytes[i] >= 128 || !IsKept(bytes[i] as char)
    ensures PercentAll(bytes) == PercentEncode(bytes, IsKept)
    ensures NoMarks(PercentAll(bytes))
  {
    if bytes != [] {
      AllEncodedAlike(bytes[1..]);
      PercentNoMarks(bytes[0]);
    }
  }

  lemma PercentNoMarks(b: Byte)
    ensures NoMarks(Percent(b))
  {
    assert forall n :: 0 <= n < 16 ==> Hex(n) !in "*'()";
    hide Hex;
  }

  lemma HighBytes(p: nat)
    requires 0x80 <= p < 0x11_0000
    ensures forall i :: 0 <= i < |Utf8(p)| ==> Utf8(p)[i] >= 128
  {
  }

  /** One code point: escaping after encodeURIComponent is percent-encoding its UTF-8 bytes. */
  lemma FrontEncodes(s: seq<Unit>)
    requires s != [] && FrontLength(s) > 0
    ensures var one := if s[0] < 128 && IsUriMark(s[0] as char) then [s[0] as char] else PercentAll(Utf8(FrontPoint(s)));
            EscapeMarks(one) == PercentEncode(Utf8(FrontPoint(s)), IsKept)
  {
    var p := FrontPoint(s);
    if p < 0x80 {
      AsciiEncodes(p);
    } else {
      HighBytes(p);
      AllEncodedAlike(Utf8(p));
      NothingToEscape(PercentAll(Utf8(p)));
    }
    hide EscapeMarks, PercentEncode, Utf8;
  }

  lemma AsciiEncodes(p: nat)
    requires p < 0x80
    ensures EscapeMarks(if IsUriMark(p as char) then [p as char] else PercentAll([p])) == PercentEncode([p], IsKept)
    ensures Utf8(p) == [p]
  {
    var c := p as char;
    if !IsKept(c) && !IsUriMark(c) {
      AllEncodedAlike([p]);
      NothingToEscape(PercentAll([p]));
    } else {
      assert EscapeMarks([c]) == EscapeMark(c) + EscapeMarks([c][1..]);
      assert PercentEncode([p], IsKept) == EncodedByte(p, IsKept) + PercentEncode([p][1..], IsKept);
    }
  }

  /** The Worker's two-stage encoding is percent-encoding of the UTF-8 form, and fails exactly when there is none. */
  lemma {:induction false} EncodeRfc5987IsPercentEncoding(s: seq<Unit>)
    ensures EncodeRfc5987(s).Some? <==> Utf8Of(s).Some?
    ensures Utf8Of(s).Some? ==> EncodeRfc5987(s).value == PercentEncode(Utf8Of(s).value, IsKept)
  {
    if s != [] && FrontLength(s) > 0 {
      var rest := s[FrontLength(s)..];
      EncodeRfc5987IsPercentEncoding(rest);
      FrontEncodes(s);
      if Utf8Of(rest).Some? {
        var one := if s[0] < 128 && IsUriMark(s[0] as char) then [s[0] as char] else PercentAll(Utf8(FrontPoint(s)));
        EscapeAppend(one, EncodeUriComponent(rest).value);
        EncodeAppend(Utf8(FrontPoint(s)), Utf8Of(rest).value, IsKept);
        hide PercentAll, FrontPoint, Utf8, EscapeMarks, PercentEncode, IsUriMark;
      }
    }
  }

  // ---------- reading UTF-8 back

  /** The point that the bytes at the front encode, and how many they are. */
  function ReadPoint(b: seq<Byte>): (r: Option<(nat, nat)>)
    ensures r.Some? ==> 1 <= r.value.1 <= |b|
  {
    if b == [] then None
    else
      var b0: int := b[0];
      if b0 < 0x80 then Some((b0, 1))
      else if b0 < 0xC0 then None
      else if b0 < 0xE0 then
        if |b| < 2 || !(0x80 <= b[1] < 0xC0) then None
        else Some(((b0 - 0xC0) * 0x40 + (b[1] as int - 0x80), 2))
      else if b0 < 0xF0 then
        if |b| < 3 || !(0x80 <= b[1] < 0xC0) || !(0x80 <= b[2] < 0xC0) then None
        else Some(((b0 - 0xE0) * 0x1000 + (b[1] as int - 0x80) * 0x40 + (b[2] as int - 0x80), 3))
      else
        if |b| < 4 || !(0x80 <= b[1] < 0xC0) || !(0x80 <= b[2] < 0xC0) || !(0x80 <= b[3] < 0xC0) then None
        else Some(((b0 - 0xF0) * 0x4_0000 + (b[1] as int - 0x80) * 0x1000 + (b[2] as int - 0x80) * 0x40
                   + (b[3] as int - 0x80), 4))
  }

  function UnitsOf(p: nat): Option<seq<Unit>> {
    if p < 0x1_0000 then Some([p])
    else if p < 0x11_0000 then Some([0xD800 + (p - 0x1_0000) / 0x400, 0xDC00 + (p - 0x1_0000) % 0x400])
    else None
  }

  function ReadUtf8(b: seq<Byte>): Option<seq<Unit>>
    decreases |b|
  {
    if b == [] then Some([])
    else
      match ReadPoint(b)
      case None => None
      case Some(front) =>
        match ReadUtf8(b[front.1..])
        case None => None
        case Some(rest) => if UnitsOf(front.0).None? then None else Some(UnitsOf(front.0).value + rest)
  }

  lemma Base64Digits(p: nat)
    ensures p == p / 0x40 * 0x40 + p % 0x40
    ensures p / 0x40 == p / 0x1000 * 0x40 + p / 0x40 % 0x40
    ensures p / 0x1000 == p / 0x4_0000 * 0x40 + p / 0x1000 % 0x40
  {
    assert p / 0x40 / 0x40 == p / 0x1000;
    assert p / 0x1000 / 0x40 == p / 0x4_0000;
  }

  lemma PointRoundTrip(p: nat, rest: seq<Byte>)
    requires p < 0x11_0000
    ensures ReadPoint(Utf8(p) + rest) == Some((p, |Utf8(p)|))
  {
    hide ReadPoint;
    Base64Digits(p);
    var b := Utf8(p);
    assert forall i :: 0 <= i < |b| ==> (b + rest)[i] == b[i];
    if p < 0x80 {
      ReadOne(b + rest);
    } else if p < 0x800 {
      ReadTwo(b + rest);
    } else if p < 0x1_0000 {
      ReadThree(b + rest);
    } else {
      ReadFour(b + rest);
    }
  }

  predicate IsTail(u: Byte) {
    0x80 <= u < 0xC0
  }

  lemma ReadOne(b: seq<Byte>)
    requires |b| >= 1 && b[0] < 0x80
    ensures ReadPoint(b) == Some((b[0], 1))
  {
  }

  lemma ReadTwo(b: seq<Byte>)
    requires |b| >= 2 && 0xC0 <= b[0] < 0xE0 && IsTail(b[1])
    ensures ReadPoint(b) == Some(((b[0] as int - 0xC0) * 0x40 + (b[1] as int - 0x80), 2))
  {
  }

  lemma ReadThree(b: seq<Byte>)
    requires |b| >= 3 && 0xE0 <= b[0] < 0xF0 && IsTail(b[1]) && IsTail(b[2])
    ensures ReadPoint(b) == Some(((b[0] as int - 0xE0) * 0x1000 + (b[1] as int - 0x80) * 0x40 + (b[2] as int - 0x80), 3))
  {
  }

  lemma ReadFour(b: seq<Byte>)
    requires |b| >= 4 && 0xF0 <= b[0] && IsTail(b[1]) && IsTail(b[2]) && IsTail(b[3])
    ensures ReadPoint(b) == Some(((b[0] as int - 0xF0) * 0x4_0000 + (b[1] as int - 0x80) * 0x1000
                                  + (b[2] as int - 0x80) * 0x40 + (b[3] as int - 0x80), 4))
  {
  }

  lemma UnitsRoundTrip(s: seq<Unit>)
    requires s != [] && FrontLength(s) > 0
    ensures UnitsOf(FrontPoint(s)) == Some(s[..FrontLength(s)])
  {
    if FrontLength(s) == 2 {
      PairRoundTrip(s[0] as int - 0xD800, s[1] as int - 0xDC00);
      assert FrontPoint(s) - 0x1_0000 == (s[0] as int - 0xD800) * 0x400 + (s[1] as int - 0xDC00);
      assert s[..2] == [s[0], s[1]];
    } else {
      assert s[..1] == [s[0]];
    }
  }

  lemma PairRoundTrip(high: nat, low: nat)
    requires low < 0x400
    ensures (high * 0x400 + low) / 0x400 == high && (high * 0x400 + low) % 0x400 == low
  {
  }

  /** The UTF-8 form determines the string. */
  lemma {:induction false} Utf8RoundTrip(s: seq<Unit>)
    requires Utf8Of(s).Some?
    ensures ReadUtf8(Utf8Of(s).value) == Some(s)
  {
    hide Utf8, ReadPoint, FrontPoint, UnitsOf;
    if s != [] {
      var n := FrontLength(s);
      var bytes := Utf8(FrontPoint(s));
      var rest := Utf8Of(s[n..]).value;
      Utf8RoundTrip(s[n..]);
      PointRoundTrip(FrontPoint(s), rest);
      UnitsRoundTrip(s);
      assert (bytes + rest)[|bytes|..] == rest;
      assert s == s[..n] + s[n..];
    }
  }

  // ---------- sanitizePdfFilename and contentDisposition

  predicate Forbidden(u: Unit) {
    u < 128 && u as char in "/\\?%*:|\"<>"
  }

  predicate Dropped(u: Unit) {
    u == 13 || u == 10 || u == 0
  }

  /** White space of JavaScript's trim. */
  predicate IsSpace(u: Unit) {
    9 <= u <= 13 || u in {0x20, 0xA0, 0x1680, 0x2028, 0x2029, 0x202F, 0x205F, 0x3000, 0xFEFF} || 0x2000 <= u <= 0x200A
  }

  function Replaced(s: seq<Unit>): seq<Unit> {
    if s == [] then []
    else (if Forbidden(s[0]) then ['_' as int] else if Dropped(s[0]) then [] else [s[0]]) + Replaced(s[1..])
  }

  function TrimLeft(s: seq<Unit>): seq<Unit> {
    if s != [] && IsSpace(s[0]) then TrimLeft(s[1..]) else s
  }

  function TrimRight(s: seq<Unit>): seq<Unit> {
    if s != [] && IsSpace(s[|s| - 1]) then TrimRight(s[..|s| - 1]) else s
  }

  /** The name is the normalised one. */
  function Cleaned(name: seq<Unit>, fallback: seq<Unit>): seq<Unit> {
    var cleaned := TrimRight(TrimLeft(Replaced(name)));
    if cleaned == [] then fallback else cleaned
  }

  function SanitizePdfFilename(name: seq<Unit>, fallback: seq<Unit>): seq<Unit> {
    var safe := Cleaned(name, fallback);
    if |safe| <= 160 then safe else safe[..160]
  }

  /** What stands for a unit in the quoted parameter. */
  function QuotedChar(u: Unit): char {
    if u < 0x20 || u > 0x7E || u as char == '"' then '_' else u as char
  }

  function QuotedName(s: seq<Unit>): string {
    seq(|s|, i requires 0 <= i < |s| => QuotedChar(s[i]))
  }

  /** None where encodeURIComponent throws. */
  function ContentDisposition(kind: string, filename: seq<Unit>): Option<string> {
    match EncodeRfc5987(filename)
    case None => None
    case Some(encoded) => Some(HeaderText(kind, QuotedName(filename), encoded))
  }

  predicate NoForbidden(s: seq<Unit>) {
    forall i :: 0 <= i < |s| ==> !Forbidden(s[i]) && !Dropped(s[i])
  }

  lemma {:induction false} ReplacedClean(s: seq<Unit>)
    ensures NoForbidden(Replaced(s))
  {
    if s != [] {
      ReplacedClean(s[1..]);
      assert !Forbidden('_' as int);
    }
  }

  /** Trimming takes a slice. */
  lemma {:induction false} TrimLeftSlice(s: seq<Unit>)
    ensures exists i :: 0 <= i <= |s| && TrimLeft(s) == s[i..]
  {
    if s != [] && IsSpace(s[0]) {
      TrimLeftSlice(s[1..]);
      var i :| 0 <= i <= |s[1..]| && TrimLeft(s[1..]) == s[1..][i..];
      assert s[1..][i..] == s[i + 1..];
    } else {
      assert s[0..] == s;
    }
  }

  lemma {:induction false} TrimRightSlice(s: seq<Unit>)
    ensures exists i :: 0 <= i <= |s| && TrimRight(s) == s[..i]
  {
    if s != [] && IsSpace(s[|s| - 1]) {
      TrimRightSlice(s[..|s| - 1]);
      var i :| 0 <= i <= |s| - 1 && TrimRight(s[..|s| - 1]) == s[..|s| - 1][..i];
      assert s[..|s| - 1][..i] == s[..i];
    } else {
      assert s[..|s|] == s;
    }
  }

  lemma TrimmedSlice(s: seq<Unit>)
    ensures exists i, k :: 0 <= i <= k <= |s| && TrimRight(TrimLeft(s)) == s[i..k]
  {
    TrimLeftSlice(s);
    var i :| 0 <= i <= |s| && TrimLeft(s) == s[i..];
    TrimRightSlice(s[i..]);
    var k :| 0 <= k <= |s[i..]| && TrimRight(s[i..]) == s[i..][..k];
    assert s[i..][..k] == s[i..i + k];
  }

  lemma SanitizedHasNoForbidden(name: seq<Unit>, fallback: seq<Unit>)
    requires NoForbidden(fallback)
    ensures NoForbidden(Cleaned(name, fallback)) && NoForbidden(SanitizePdfFilename(name, fallback))
  {
    ReplacedClean(name);
    TrimmedSlice(Replaced(name));
  }

  // ---------- lone surrogates

  /** No lone surrogates. */
  predicate WellFormed(s: seq<Unit>) {
    Utf8Of(s).Some?
  }

  lemma FrontWellFormed(s: seq<Unit>, t: seq<Unit>)
    requires s != [] && FrontLength(s) == |s|
    ensures WellFormed(s + t) <==> WellFormed(t)
  {
    assert FrontLength(s + t) == |s|;
    assert (s + t)[|s|..] == t;
    hide Utf8;
  }

  /** The parts of a string: its first code point and the rest. */
  lemma FrontAndRest(s: seq<Unit>)
    requires s != []
    ensures WellFormed(s) <==> FrontLength(s) > 0 && WellFormed(s[FrontLength(s)..])
    ensures FrontLength(s) > 0 ==> FrontLength(s[..FrontLength(s)]) == FrontLength(s)
    ensures s == s[..FrontLength(s)] + s[FrontLength(s)..]
  {
    hide Utf8;
  }

  lemma {:induction false} ReplacedWellFormed(s: seq<Unit>)
    requires WellFormed(s)
    ensures WellFormed(Replaced(s))
  {
    hide Utf8Of;
    if s != [] {
      FrontAndRest(s);
      var n := FrontLength(s);
      ReplacedWellFormed(s[n..]);
      if n == 2 {
        assert s[1..] != [] && s[1..][1..] == s[2..] && s[1..][0] == s[1];
        assert Replaced(s) == s[..2] + Replaced(s[2..]);
        FrontWellFormed(s[..2], Replaced(s[2..]));
      } else if Forbidden(s[0]) {
        FrontWellFormed(['_' as int], Replaced(s[1..]));
      } else if !Dropped(s[0]) {
        FrontWellFormed([s[0]], Replaced(s[1..]));
      } else {
        assert Replaced(s) == Replaced(s[1..]);
      }
    }
  }

  lemma {:induction false} TrimLeftWellFormed(s: seq<Unit>)
    requires WellFormed(s)
    ensures WellFormed(TrimLeft(s))
  {
    if s != [] && IsSpace(s[0]) {
      FrontAndRest(s);
      TrimLeftWellFormed(s[1..]);
    }
    hide Utf8Of;
  }

  /** A prefix is free of lone surrogates exactly when it does not end inside a pair. */
  lemma {:induction false} PrefixWellFormed(s: seq<Unit>, k: nat)
    requires WellFormed(s) && k <= |s|
    ensures WellFormed(s[..k]) <==> k == 0 || !IsHigh(s[k - 1])
    decreases |s|
  {
    if k == 0 {
    } else {
      FrontAndRest(s);
      var n := FrontLength(s);
      if k < n {
        LoneHigh(s[..1]);
      } else {
        PrefixWellFormed(s[n..], k - n);
        assert s[..k] == s[..n] + s[n..][..k - n];
        FrontWellFormed(s[..n], s[n..][..k - n]);
      }
      hide Utf8Of;
    }
  }

  lemma LoneHigh(s: seq<Unit>)
    requires |s| == 1 && IsHigh(s[0])
    ensures !WellFormed(s)
  {
  }

  lemma {:induction false} TrimRightWellFormed(s: seq<Unit>)
    requires WellFormed(s)
    ensures WellFormed(TrimRight(s))
  {
    if s != [] && IsSpace(s[|s| - 1]) {
      PrefixWellFormed(s, |s| - 1);
      if |s| > 1 && IsHigh(s[|s| - 2]) {
        PairsOnly(s, |s| - 2);
      }
      TrimRightWellFormed(s[..|s| - 1]);
    }
    hide Utf8Of;
  }

  /** In a well-formed string a high surrogate is followed by a low one. */
  lemma {:induction false} PairsOnly(s: seq<Unit>, i: nat)
    requires WellFormed(s) && i < |s| && IsHigh(s[i])
    ensures i + 1 < |s| && IsLow(s[i + 1])
  {
    FrontAndRest(s);
    var n := FrontLength(s);
    if i >= n {
      PairsOnly(s[n..], i - n);
    }
    hide Utf8Of;
  }

  lemma CleanedWellFormed(name: seq<Unit>, fallback: seq<Unit>)
    requires WellFormed(name) && WellFormed(fallback)
    ensures WellFormed(Cleaned(name, fallback))
  {
    ReplacedWellFormed(name);
    TrimLeftWellFormed(Replaced(name));
    TrimRightWellFormed(TrimLeft(Replaced(name)));
    hide WellFormed;
  }

  // ---------- the headers

  lemma {:induction false} ValueCharsNoSemicolon(s: string)
    requires IsValueChars(s)
    ensures ';' !in s
  {
    if s != "" {
      if s[0] == '%' {
        ValueCharsNoSemicolon(s[3..]);
        assert s == [s[0], s[1], s[2]] + s[3..];
      } else {
        ValueCharsNoSemicolon(s[1..]);
        assert s == [s[0]] + s[1..];
      }
    }
  }

  lemma QuotedNameClean(s: seq<Unit>)
    requires NoForbidden(s)
    ensures IsClean(QuotedName(s))
  {
    assert Forbidden('\\' as int);
  }

  /** The octets of the filename* parameter. */
  function ExtOctets(header: string): Option<seq<Byte>> {
    match ParseDisposition(header)
    case None => None
    case Some(d) =>
      if |d.params| == 2 && d.params[1].name == "filename*" && !d.params[1].quoted && EXT_PREFIX <= d.params[1].value
      then PercentDecode(d.params[1].value[|EXT_PREFIX|..])
      else None
  }

  /** The text of the quoted filename parameter. */
  function QuotedText(header: string): Option<string> {
    match ParseDisposition(header)
    case None => None
    case Some(d) =>
      if |d.params| == 2 && d.params[0].name == "filename" && d.params[0].quoted then Some(d.params[0].value) else None
  }

  lemma HeaderRoundTrip(kind: string, quoted: string, bytes: seq<Byte>, plain: char -> bool)
    requires ';' !in kind && IsClean(quoted) && forall c :: plain(c) ==> IsAttrChar(c)
    ensures var header := HeaderText(kind, quoted, PercentEncode(bytes, plain));
            ExtOctets(header) == Some(bytes) && QuotedText(header) == Some(quoted)
  {
    hide HeaderText, ParseDisposition, IsClean, PercentEncode, PercentDecode, IsValueChars, IsAttrChar;
    var value := PercentEncode(bytes, plain);
    PercentRoundTrip(bytes, plain);
    ValueCharsNoSemicolon(value);
    HeaderParses(kind, quoted, value);
    assert (EXT_PREFIX + value)[|EXT_PREFIX|..] == value;
  }

  /** The Worker's header for any name without lone surrogates: it can be made exactly when the cut at 160 units does
      not fall inside a surrogate pair, and then a parser gets back the sanitised name and a clean quoted one. */
  lemma WorkerHeaderRoundTrip(kind: string, name: seq<Unit>, fallback: seq<Unit>)
    requires ';' !in kind && WellFormed(name) && WellFormed(fallback) && NoForbidden(fallback)
    ensures var cleaned := Cleaned(name, fallback);
            var filename := SanitizePdfFilename(name, fallback);
            var header := ContentDisposition(kind, filename);
            && (header.None? <==> |cleaned| > 160 && IsHigh(cleaned[159]))
            && IsClean(QuotedName(filename))
            && (header.Some? ==>
                 && QuotedText(header.value) == Some(QuotedName(filename))
                 && ExtOctets(header.value).Some? && ReadUtf8(ExtOctets(header.value).value) == Some(filename))
  {
    hide Cleaned, NoForbidden, QuotedName, EncodeRfc5987, PercentEncode, Utf8Of, HeaderText;
    hide QuotedText, ExtOctets, ReadUtf8, IsClean, IsKept, IsAttrChar;
    var cleaned := Cleaned(name, fallback);
    var filename := SanitizePdfFilename(name, fallback);
    CleanedWellFormed(name, fallback);
    SanitizedHasNoForbidden(name, fallback);
    QuotedNameClean(filename);
    EncodeRfc5987IsPercentEncoding(filename);
    if |cleaned| > 160 {
      PrefixWellFormed(cleaned, 160);
    }
    KeptIsAttrChar();
    if Utf8Of(filename).Some? {
      Utf8RoundTrip(filename);
      HeaderRoundTrip(kind, QuotedName(filename), Utf8Of(filename).value, IsKept);
    }
  }

  lemma KeptIsAttrChar()
    ensures forall c :: IsKept(c) ==> IsAttrChar(c)
  {
  }

  // ---------- the Python side

  /** What urllib's quote leaves as it is with safe="". */
  predicate IsUnreserved(c: char) {
    IsAlphanumeric(c) || c in "_.-~"
  }

  predicate IsPlainFile(c: char) {
    IsAlphanumeric(c) || c in "._ -"
  }

  function StripLeft(s: string): string {
    if s != "" && s[0] in " ." then StripLeft(s[1..]) else s
  }

  function StripRight(s: string): string {
    if s != "" && s[|s| - 1] in " ." then StripRight(s[..|s| - 1]) else s
  }

  /** The quoted name, from the ASCII part of the decomposed file name. */
  function AsciiName(ascii: string): string {
    var plain := seq(|ascii|, i requires 0 <= i < |ascii| => if IsPlainFile(ascii[i]) then ascii[i] else '_');
    var stripped := StripRight(StripLeft(plain));
    var name := if stripped == "" then "download" else stripped;
    if |name| <= 160 then name else name[..160]
  }

  function PyContentDisposition(kind: string, ascii: string, filename: seq<Byte>): string {
    HeaderText(kind, AsciiName(ascii), PercentEncode(filename, IsUnreserved))
  }

  predicate AllPlain(s: string) {
    forall i :: 0 <= i < |s| ==> IsPlainFile(s[i])
  }

  lemma {:induction false} StripLeftPlain(s: string)
    requires AllPlain(s)
    ensures AllPlain(StripLeft(s))
  {
    if s != "" && s[0] in " ." {
      StripLeftPlain(s[1..]);
    }
  }

  lemma {:induction false} StripRightPlain(s: string)
    requires AllPlain(s)
    ensures AllPlain(StripRight(s))
  {
    if s != "" && s[|s| - 1] in " ." {
      StripRightPlain(s[..|s| - 1]);
    }
  }

  lemma AsciiNameClean(ascii: string)
    ensures IsClean(AsciiName(ascii)) && 0 < |AsciiName(ascii)| <= 160
  {
    var plain := seq(|ascii|, i requires 0 <= i < |ascii| => if IsPlainFile(ascii[i]) then ascii[i] else '_');
    assert AllPlain(plain);
    StripLeftPlain(plain);
    StripRightPlain(StripLeft(plain));
    assert AllPlain("download");
  }

  /** The Python header for any file name, as UTF-8 bytes, and any ASCII part: a parser gets back both. */
  lemma PythonHeaderRoundTrip(kind: string, ascii: string, filename: seq<Byte>)
    requires ';' !in kind
    ensures var header := PyContentDisposition(kind, ascii, filename);
            && ExtOctets(header) == Some(filename)
            && QuotedText(header) == Some(AsciiName(ascii))
            && IsClean(AsciiName(ascii)) && 0 < |AsciiName(ascii)| <= 160
  {
    hide AsciiName, IsClean, HeaderText, PercentEncode, ExtOctets, QuotedText;
    AsciiNameClean(ascii);
    HeaderRoundTrip(kind, AsciiName(ascii), filename, IsUnreserved);
  }

  // ---------- what the names are

  predicate AllSpace(s: seq<Unit>) {
    forall i :: 0 <= i < |s| ==> IsSpace(s[i])
  }

  lemma {:induction false} TrimLeftExact(s: seq<Unit>) returns (a: seq<Unit>)
    ensures s == a + TrimLeft(s) && AllSpace(a)
    ensures TrimLeft(s) != [] ==> !IsSpace(TrimLeft(s)[0])
  {
    if s != [] && IsSpace(s[0]) {
      var rest := TrimLeftExact(s[1..]);
      a := [s[0]] + rest;
      assert s == [s[0]] + s[1..];
    } else {
      a := [];
    }
  }

  lemma {:induction false} TrimRightExact(s: seq<Unit>) returns (b: seq<Unit>)
    ensures s == TrimRight(s) + b && AllSpace(b)
    ensures TrimRight(s) != [] ==> !IsSpace(TrimRight(s)[|TrimRight(s)| - 1])
  {
    if s != [] && IsSpace(s[|s| - 1]) {
      var rest := TrimRightExact(s[..|s| - 1]);
      b := rest + [s[|s| - 1]];
      assert s == s[..|s| - 1] + [s[|s| - 1]];
    } else {
      b := [];
    }
  }

  /** Trimming takes away white space at both ends and leaves none there. */
  lemma TrimExact(s: seq<Unit>) returns (a: seq<Unit>, b: seq<Unit>)
    ensures var t := TrimRight(TrimLeft(s));
            && s == a + t + b && AllSpace(a) && AllSpace(b)
            && (t != [] ==> !IsSpace(t[0]) && !IsSpace(t[|t| - 1]))
  {
    a := TrimLeftExact(s);
    b := TrimRightExact(TrimLeft(s));
    var t := TrimRight(TrimLeft(s));
    if t != [] {
      assert TrimLeft(s)[0] == t[0];
    }
  }

  /** The name without dropped units has a replacement for each forbidden one and every other unit as it was. */
  lemma {:induction false} ReplacedExact(s: seq<Unit>)
    requires forall i :: 0 <= i < |s| ==> !Dropped(s[i])
    ensures |Replaced(s)| == |s|
    ensures forall i :: 0 <= i < |s| ==> Replaced(s)[i] == if Forbidden(s[i]) then '_' as int else s[i]
  {
    if s != [] {
      ReplacedExact(s[1..]);
    }
  }

  /** Dropped units make no difference. */
  lemma {:induction false} DroppedMakesNoDifference(a: seq<Unit>, u: Unit, b: seq<Unit>)
    requires Dropped(u)
    ensures Replaced(a + [u] + b) == Replaced(a + b)
  {
    if a == [] {
      assert ([] + [u] + b)[1..] == b && [] + b == b;
      assert !Forbidden(u);
    } else {
      assert (a + [u] + b)[1..] == a[1..] + [u] + b;
      assert (a + b)[1..] == a[1..] + b;
      DroppedMakesNoDifference(a[1..], u, b);
    }
  }

  /** A name with no forbidden or dropped unit, no white space at its ends and at most 160 units comes back unchanged; a
      longer one as its first 160 units. */
  lemma GoodNameKept(name: seq<Unit>, fallback: seq<Unit>)
    requires name != [] && NoForbidden(name) && !IsSpace(name[0]) && !IsSpace(name[|name| - 1])
    ensures SanitizePdfFilename(name, fallback) == if |name| <= 160 then name else name[..160]
  {
    ReplacedExact(name);
    assert Replaced(name) == name;
  }

  /** The fallback is taken when nothing but white space is left, and only then. */
  lemma FallbackTaken(name: seq<Unit>, fallback: seq<Unit>)
    ensures TrimRight(TrimLeft(Replaced(name))) == [] <==> AllSpace(Replaced(name))
    ensures AllSpace(Replaced(name)) ==> Cleaned(name, fallback) == fallback
    ensures !AllSpace(Replaced(name)) ==> Cleaned(name, fallback) == TrimRight(TrimLeft(Replaced(name))) != []
  {
    var s := Replaced(name);
    var a, b := TrimExact(s);
    var t := TrimRight(TrimLeft(s));
    if t != [] {
      assert s[|a|] == t[0];
    } else {
      assert s == a + b;
    }
  }

  /** The quoted name has each printable ASCII character but the quote, and an underscore for everything else. */
  lemma QuotedNameExact(s: seq<Unit>)
    ensures |QuotedName(s)| == |s|
    ensures forall i :: 0 <= i < |s| ==>
              QuotedName(s)[i] == if 0x20 <= s[i] <= 0x7E && s[i] != '"' as int then s[i] as char else '_'
  {
  }

  /** An ASCII name of at most 160 letters, digits, dots, underscores, spaces and hyphens, with no space or dot at its ends,
      is quoted as it is; one of which nothing is left is called "download". */
  lemma AsciiNameKept(ascii: string)
    ensures (ascii != "" && AllPlain(ascii) && ascii[0] !in " ." && ascii[|ascii| - 1] !in " ." && |ascii| <= 160) ==>
      AsciiName(ascii) == ascii
    ensures AsciiName("") == "download"
  {
    var plain := seq(|ascii|, i requires 0 <= i < |ascii| => if IsPlainFile(ascii[i]) then ascii[i] else '_');
    if AllPlain(ascii) {
      assert plain == ascii;
    }
  }
}
