// `encodeURIComponent`, the reserved variant built on it, and the decoders that read both back.
module PercentEncoding {
  import opened Wrappers

  type Byte = b: int | 0 <= b < 256

  // ---- UTF-8 ----

  function Utf8(c: char): seq<Byte> {
    var cp := c as int;
    if cp < 0x80 then [cp]
    else if cp < 0x800 then [0xC0 + cp / 64, 0x80 + cp % 64]
    else if cp < 0x1_0000 then [0xE0 + cp / 4096, 0x80 + cp / 64 % 64, 0x80 + cp % 64]
    else [0xF0 + cp / 262144, 0x80 + cp / 4096 % 64, 0x80 + cp / 64 % 64, 0x80 + cp % 64]
  }

  function Utf8String(s: string): seq<Byte> {
    if s == [] then [] else Utf8(s[0]) + Utf8String(s[1..])
  }

  function ToChar(cp: int): Option<char> {
    if 0 <= cp < 0xD800 || 0xE000 <= cp < 0x11_0000 then Some(cp as char) else None
  }

  // The code point at the head of `bytes` and how many bytes it takes.
  function HeadCodePoint(bytes: seq<int>): (r: Option<(int, nat)>)
    ensures r.Some? ==> 1 <= r.value.1 <= |bytes|
  {
    if |bytes| >= 1 && bytes[0] < 0x80 then Some((bytes[0], 1))
    else if |bytes| >= 2 && 0xC0 <= bytes[0] < 0xE0 then
      Some(((bytes[0] - 0xC0) * 64 + (bytes[1] - 0x80), 2))
    else if |bytes| >= 3 && 0xE0 <= bytes[0] < 0xF0 then
      Some((((bytes[0] - 0xE0) * 64 + (bytes[1] - 0x80)) * 64 + (bytes[2] - 0x80), 3))
    else if |bytes| >= 4 && 0xF0 <= bytes[0] then
      Some(((((bytes[0] - 0xF0) * 64 + (bytes[1] - 0x80)) * 64 + (bytes[2] - 0x80)) * 64 + (bytes[3] - 0x80), 4))
    else None
  }

  function Utf8Decode(bytes: seq<Byte>): Option<string> {
    if bytes == [] then Some("")
    else
      match HeadCodePoint(bytes)
      case None => None
      case Some((cp, size)) =>
        match (ToChar(cp), Utf8Decode(bytes[size..]))
        case (Some(c), Some(rest)) => Some([c] + rest)
        case _ => None
  }

  lemma SixBitDigits(cp: nat)
    ensures cp / 64 * 64 + cp % 64 == cp
    ensures cp / 4096 * 64 + cp / 64 % 64 == cp / 64
    ensures cp / 262144 * 64 + cp / 4096 % 64 == cp / 4096
  {
  }

  lemma Utf8HeadReads(c: char, bytes: seq<int>)
    requires |Utf8(c)| <= |bytes|
    requires forall k :: 0 <= k < |Utf8(c)| ==> bytes[k] == Utf8(c)[k]
    ensures HeadCodePoint(bytes) == Some((c as int, |Utf8(c)|))
  {
    var cp := c as int;
    SixBitDigits(cp);
    assert bytes[0] == Utf8(c)[0];
    if 0x80 <= cp {
      assert bytes[1] == Utf8(c)[1];
      if 0x800 <= cp {
        assert bytes[2] == Utf8(c)[2];
        if 0x1_0000 <= cp {
          assert bytes[3] == Utf8(c)[3];
        }
      }
    }
  }

  lemma HeadOfUtf8(c: char, rest: seq<Byte>)
    ensures HeadCodePoint(Utf8(c) + rest) == Some((c as int, |Utf8(c)|))
    ensures (Utf8(c) + rest)[|Utf8(c)|..] == rest
  {
    Utf8HeadReads(c, Utf8(c) + rest);
  }

  lemma {:induction false} Utf8RoundTrip(s: string)
    ensures Utf8Decode(Utf8String(s)) == Some(s)
  {
    if s != [] {
      HeadOfUtf8(s[0], Utf8String(s[1..]));
      Utf8RoundTrip(s[1..]);
      assert s == [s[0]] + s[1..];
    }
  }

  // ---- Percent encoding ----

  predicate Alphanumeric(c: char) {
    'A' <= c <= 'Z' || 'a' <= c <= 'z' || '0' <= c <= '9'
  }

  // What `encodeURIComponent` leaves as it is.
  predicate Unreserved(c: char) {
    Alphanumeric(c) || c in {'-', '_', '.', '!', '~', '*', '\'', '(', ')'}
  }

  function HexDigit(d: int): char
    requires 0 <= d < 16
  {
    if d < 10 then '0' + d as char else 'A' + (d - 10) as char
  }

  function HexValue(c: char): Option<int> {
    if '0' <= c <= '9' then Some(c as int - '0' as int)
    else if 'A' <= c <= 'F' then Some(c as int - 'A' as int + 10)
    else if 'a' <= c <= 'f' then Some(c as int - 'a' as int + 10)
    else None
  }

  function Escape(b: Byte): string {
    ['%', HexDigit(b / 16), HexDigit(b % 16)]
  }

  function Escapes(bytes: seq<Byte>): string {
    if bytes == [] then "" else Escape(bytes[0]) + Escapes(bytes[1..])
  }

  // `encodeURIComponent`.
  function Encode(s: string): string {
    if s == [] then ""
    else (if Unreserved(s[0]) then [s[0]] else Escapes(Utf8(s[0]))) + Encode(s[1..])
  }

  // Percent-decoding to bytes. A stray `%` or a character outside ASCII is malformed.
  function DecodeBytes(s: string): Option<seq<Byte>> {
    if s == [] then Some([])
    else if s[0] == '%' then
      if |s| < 3 then None
      else
        match (HexValue(s[1]), HexValue(s[2]), DecodeBytes(s[3..]))
        case (Some(high), Some(low), Some(rest)) => Some([high * 16 + low] + rest)
        case _ => None
    else if s[0] as int < 0x80 then
      match DecodeBytes(s[1..])
      case Some(rest) => Some([s[0] as int] + rest)
      case None => None
    else None
  }

  function Decode(s: string): Option<string> {
    match DecodeBytes(s)
    case Some(bytes) => Utf8Decode(bytes)
    case None => None
  }

  // ---- Encoded text as a sequence of tokens ----

  // One unit of encoded text: a character that stands for itself, or an escaped byte.
  datatype Token = Literal(c: char) | Escaped(b: Byte)

  predicate Tidy(tokens: seq<Token>) {
    forall i :: 0 <= i < |tokens| && tokens[i].Literal? ==> tokens[i].c != '%' && tokens[i].c as int < 0x80
  }

  function Render(token: Token): string {
    match token
    case Literal(c) => [c]
    case Escaped(b) => Escape(b)
  }

  function Text(tokens: seq<Token>): string {
    if tokens == [] then "" else Render(tokens[0]) + Text(tokens[1..])
  }

  function TokenByte(token: Token): Byte
    requires token.Literal? ==> token.c as int < 0x80
  {
    match token
    case Literal(c) => c as int
    case Escaped(b) => b
  }

  function Bytes(tokens: seq<Token>): seq<Byte>
    requires Tidy(tokens)
  {
    seq(|tokens|, i requires 0 <= i < |tokens| => TokenByte(tokens[i]))
  }

  function EscapedTokens(bytes: seq<Byte>): seq<Token> {
    seq(|bytes|, i requires 0 <= i < |bytes| => Escaped(bytes[i]))
  }

  function Tokens(s: string): (tokens: seq<Token>)
    ensures Tidy(tokens)
  {
    if s == [] then []
    else CharTokens(s[0]) + Tokens(s[1..])
  }

  lemma {:induction false} TextConcat(a: seq<Token>, b: seq<Token>)
    ensures Text(a + b) == Text(a) + Text(b)
  {
    if a == [] {
      assert a + b == b;
    } else {
      calc {
        Text(a + b);
        { assert (a + b)[0] == a[0] && (a + b)[1..] == a[1..] + b; }
        Render(a[0]) + Text(a[1..] + b);
        { TextConcat(a[1..], b); }
        Render(a[0]) + (Text(a[1..]) + Text(b));
        Text(a) + Text(b);
      }
    }
  }

  lemma {:induction false} TextOfEscaped(bytes: seq<Byte>)
    ensures Text(EscapedTokens(bytes)) == Escapes(bytes)
  {
    if bytes != [] {
      TextOfEscaped(bytes[1..]);
      assert EscapedTokens(bytes)[1..] == EscapedTokens(bytes[1..]);
    }
  }

  function CharTokens(c: char): (tokens: seq<Token>)
    ensures Tidy(tokens)
  {
    if Unreserved(c) then [Literal(c)] else EscapedTokens(Utf8(c))
  }

  lemma CharTokensMeaning(c: char)
    ensures Text(CharTokens(c)) == if Unreserved(c) then [c] else Escapes(Utf8(c))
    ensures Bytes(CharTokens(c)) == Utf8(c)
  {
    if Unreserved(c) {
      assert Text([Literal(c)]) == Render(Literal(c)) + Text([]);
    } else {
      TextOfEscaped(Utf8(c));
    }
  }

  lemma {:induction false} EncodeIsText(s: string)
    ensures Encode(s) == Text(Tokens(s))
  {
    if s != [] {
      EncodeIsText(s[1..]);
      TextConcat(CharTokens(s[0]), Tokens(s[1..]));
      CharTokensMeaning(s[0]);
    }
  }

  lemma BytesConcat(a: seq<Token>, b: seq<Token>)
    requires Tidy(a) && Tidy(b)
    ensures Tidy(a + b) && Bytes(a + b) == Bytes(a) + Bytes(b)
  {
  }

  lemma {:induction false} TokensSpellUtf8(s: string)
    ensures Bytes(Tokens(s)) == Utf8String(s)
  {
    if s != [] {
      TokensSpellUtf8(s[1..]);
      CharTokensMeaning(s[0]);
      BytesConcat(CharTokens(s[0]), Tokens(s[1..]));
    }
  }

  lemma HexRoundTrip(b: Byte)
    ensures HexValue(HexDigit(b / 16)) == Some(b / 16)
    ensures HexValue(HexDigit(b % 16)) == Some(b % 16)
  {
  }

  // Decoding any tidy text gives back the byte each token stands for.
  lemma {:induction false} DecodeText(tokens: seq<Token>)
    requires Tidy(tokens)
    ensures DecodeBytes(Text(tokens)) == Some(Bytes(tokens))
  {
    if tokens != [] {
      var rest := tokens[1..];
      DecodeText(rest);
      assert Bytes(tokens) == [TokenByte(tokens[0])] + Bytes(rest);
      match tokens[0] {
        case Literal(c) =>
          assert Text(tokens)[1..] == Text(rest);
        case Escaped(b) =>
          HexRoundTrip(b);
          assert Text(tokens)[3..] == Text(rest);
      }
    }
  }

  // `decodeURIComponent` undoes `encodeURIComponent` on every string.
  lemma DecodeUndoesEncode(s: string)
    ensures Decode(Encode(s)) == Some(s)
  {
    EncodeIsText(s);
    TokensSpellUtf8(s);
    DecodeText(Tokens(s));
    Utf8RoundTrip(s);
  }

  // ---- Reserved expansion ----

  // The characters a reserved expansion puts back, in the order of the replacements. `;` and `=` are not among them.
  function Restored(): (cs: string)
    ensures ',' in cs && '%' !in cs
    ensures forall k :: 0 <= k < |cs| ==> cs[k] as int < 0x80
  {
    var cs := [':', '/', '?', '#', '[', ']', '@'] + ['!', '$', '&', '\'', '(', ')', '*', '+', ','];
    assert cs[15] == ',';
    cs
  }

  // `s` starts with the escape of `c`, in either case of the hexadecimal digits.
  predicate StartsWithEscape(s: string, c: char) {
    |s| >= 3 && s[0] == '%' && HexValue(s[1]) == Some(c as int / 16) && HexValue(s[2]) == Some(c as int % 16)
  }

  // `value.replace(/%XX/gi, c)` for the escape of `c`.
  function Restore(s: string, c: char): string {
    if s == [] then ""
    else if StartsWithEscape(s, c) then [c] + Restore(s[3..], c)
    else [s[0]] + Restore(s[1..], c)
  }

  function RestoreAll(s: string, cs: string): string
    decreases |cs|
  {
    if cs == [] then s else RestoreAll(Restore(s, cs[0]), cs[1..])
  }

  // `encodeReserved`: percent-encode, then put the reserved characters back one after another.
  function EncodeReserved(s: string): string {
    RestoreAll(Encode(s), Restored())
  }

  function RestoreToken(token: Token, cs: string): Token {
    if token.Escaped? && token.b < 0x80 && token.b as char in cs then Literal(token.b as char) else token
  }

  function RestoreTokens(tokens: seq<Token>, cs: string): (r: seq<Token>)
    ensures |r| == |tokens|
  {
    seq(|tokens|, i requires 0 <= i < |tokens| => RestoreToken(tokens[i], cs))
  }

  lemma EscapeStarts(b: Byte, rest: string, c: char)
    requires c as int < 0x80
    ensures StartsWithEscape(Escape(b) + rest, c) <==> b == c as int
  {
    var text := Escape(b) + rest;
    HexRoundTrip(b);
    assert text[1] == HexDigit(b / 16) && text[2] == HexDigit(b % 16);
  }

  lemma RestoreSkips(head: char, rest: string, c: char)
    requires head != '%'
    ensures Restore([head] + rest, c) == [head] + Restore(rest, c)
  {
    assert ([head] + rest)[1..] == rest;
  }

  lemma RestoreSkipsEscape(b: Byte, rest: string, c: char)
    requires c as int < 0x80 && b != c as int
    ensures Restore(Escape(b) + rest, c) == Escape(b) + Restore(rest, c)
  {
    var high, low := HexDigit(b / 16), HexDigit(b % 16);
    EscapeStarts(b, rest, c);
    assert Escape(b) + rest == ['%'] + ([high] + ([low] + rest));
    RestoreSkips(low, rest, c);
    RestoreSkips(high, [low] + rest, c);
    assert (Escape(b) + rest)[1..] == [high] + ([low] + rest);
    assert Escape(b) + Restore(rest, c) == ['%'] + ([high] + ([low] + Restore(rest, c)));
  }

  // One textual replacement never straddles two tokens: it rewrites exactly the escapes of `c`.
  lemma RestoreStep(token: Token, rest: string, c: char)
    requires token.Literal? ==> token.c != '%'
    requires c as int < 0x80
    ensures Restore(Render(token) + rest, c) == Render(RestoreToken(token, [c])) + Restore(rest, c)
  {
    match token
    case Literal(l) =>
      RestoreSkips(l, rest, c);
    case Escaped(b) =>
      if b != c as int {
        RestoreSkipsEscape(b, rest, c);
      } else {
        EscapeStarts(b, rest, c);
        assert (Escape(b) + rest)[3..] == rest;
      }
  }

  lemma {:induction false} RestoreActsOnTokens(tokens: seq<Token>, c: char)
    requires Tidy(tokens) && c as int < 0x80
    ensures Restore(Text(tokens), c) == Text(RestoreTokens(tokens, [c]))
  {
    if tokens != [] {
      RestoreActsOnTokens(tokens[1..], c);
      RestoreStep(tokens[0], Text(tokens[1..]), c);
      assert RestoreTokens(tokens, [c])[1..] == RestoreTokens(tokens[1..], [c]);
    }
  }

  lemma {:induction false} RestoreAllActsOnTokens(tokens: seq<Token>, cs: string)
    requires Tidy(tokens) && forall k :: 0 <= k < |cs| ==> cs[k] as int < 0x80 && cs[k] != '%'
    ensures RestoreAll(Text(tokens), cs) == Text(RestoreTokens(tokens, cs))
    decreases |cs|
  {
    if cs == [] {
      assert RestoreTokens(tokens, cs) == tokens;
    } else {
      var once := RestoreTokens(tokens, [cs[0]]);
      RestoreActsOnTokens(tokens, cs[0]);
      RestoringKeepsBytes(tokens, [cs[0]]);
      RestoreAllActsOnTokens(once, cs[1..]);
      assert RestoreTokens(once, cs[1..]) == RestoreTokens(tokens, cs);
    }
  }

  lemma RestoringKeepsBytes(tokens: seq<Token>, cs: string)
    requires Tidy(tokens) && '%' !in cs
    ensures Tidy(RestoreTokens(tokens, cs))
    ensures Bytes(RestoreTokens(tokens, cs)) == Bytes(tokens)
  {
  }

  // Restoring the reserved characters loses nothing: the decoder still reads the value back.
  lemma DecodeUndoesEncodeReserved(s: string)
    ensures Decode(EncodeReserved(s)) == Some(s)
  {
    var tokens := Tokens(s);
    EncodeIsText(s);
    TokensSpellUtf8(s);
    RestoreAllActsOnTokens(tokens, Restored());
    RestoringKeepsBytes(tokens, Restored());
    DecodeText(RestoreTokens(tokens, Restored()));
    Utf8RoundTrip(s);
  }

  // ---- Which separators survive ----

  // A character that occurs neither in an escape nor as its first character.
  predicate Separator(c: char) {
    c != '%' && !Alphanumeric(c) && c as int < 0x80
  }

  lemma {:induction false} SeparatorInText(tokens: seq<Token>, c: char)
    requires Separator(c)
    ensures c in Text(tokens) <==> Literal(c) in tokens
  {
    if tokens != [] {
      SeparatorInText(tokens[1..], c);
      assert tokens == [tokens[0]] + tokens[1..];
      assert c in Render(tokens[0]) <==> tokens[0] == Literal(c);
    }
  }

  lemma {:induction false} SeparatorInTokens(s: string, c: char)
    requires Separator(c)
    ensures Literal(c) in Tokens(s) <==> Unreserved(c) && c in s
    ensures Escaped(c as int) in Tokens(s) <==> !Unreserved(c) && c in s
  {
    if s != [] {
      SeparatorInTokens(s[1..], c);
      assert s == [s[0]] + s[1..];
      assert Literal(c) in CharTokens(s[0]) <==> s[0] == c && Unreserved(c);
      assert Escaped(c as int) in CharTokens(s[0]) <==> s[0] == c && !Unreserved(c) by {
        if s[0] == c && !Unreserved(c) {
          assert CharTokens(c)[0] == Escaped(c as int);
        }
      }
    }
  }

  // A separator shows up in encoded text only if `encodeURIComponent` leaves it alone.
  lemma SeparatorInEncoded(s: string, c: char)
    requires Separator(c)
    ensures c in Encode(s) <==> Unreserved(c) && c in s
  {
    EncodeIsText(s);
    SeparatorInText(Tokens(s), c);
    SeparatorInTokens(s, c);
  }

  lemma LiteralAfterRestoring(tokens: seq<Token>, cs: string, c: char)
    requires c as int < 0x80
    ensures Literal(c) in RestoreTokens(tokens, cs)
      <==> Literal(c) in tokens || (c in cs && Escaped(c as int) in tokens)
  {
    var restored := RestoreTokens(tokens, cs);
    if Literal(c) in tokens || (c in cs && Escaped(c as int) in tokens) {
      var k :| 0 <= k < |tokens| && (tokens[k] == Literal(c) || (c in cs && tokens[k] == Escaped(c as int)));
      assert restored[k] == Literal(c);
    }
  }

  // A reserved expansion shows a restored separator exactly where the value has it.
  lemma SeparatorInEncodedReserved(s: string, c: char)
    requires Separator(c) && c in Restored()
    ensures c in EncodeReserved(s) <==> c in s
  {
    EncodeIsText(s);
    RestoreAllActsOnTokens(Tokens(s), Restored());
    SeparatorInText(RestoreTokens(Tokens(s), Restored()), c);
    LiteralAfterRestoring(Tokens(s), Restored(), c);
    SeparatorInTokens(s, c);
  }

  // The separator of a reserved list survives inside its values.
  lemma CommaInEncodedReserved(s: string)
    ensures ',' in EncodeReserved(s) <==> ',' in s
  {
    SeparatorInEncodedReserved(s, ',');
  }

  lemma {:induction false} CharactersOfText(tokens: seq<Token>, c: char)
    requires c in Text(tokens)
    ensures Alphanumeric(c) || c == '%' || Literal(c) in tokens
  {
    if c in Render(tokens[0]) {
      if tokens[0].Escaped? {
        HexDigitsAreAlphanumeric(tokens[0].b);
      }
    } else {
      CharactersOfText(tokens[1..], c);
    }
  }

  lemma HexDigitsAreAlphanumeric(b: Byte)
    ensures Alphanumeric(HexDigit(b / 16)) && Alphanumeric(HexDigit(b % 16))
  {
  }

  lemma {:induction false} LiteralsOfString(s: string, c: char)
    ensures Literal(c) in Tokens(s) <==> c in s && Unreserved(c)
  {
    if s != [] {
      LiteralsOfString(s[1..], c);
      assert s == [s[0]] + s[1..];
      assert Literal(c) in CharTokens(s[0]) <==> s[0] == c && Unreserved(c);
    }
  }

  // What both encodings are made of: letters, digits, escapes, and of the other characters exactly these, where the
  // value has them.
  lemma EncodedCharacters(s: string, c: char)
    requires !Alphanumeric(c) && c != '%'
    ensures c in Encode(s) <==> c in s && c in {'-', '_', '.', '!', '~', '*', '\'', '(', ')'}
    ensures c in EncodeReserved(s) <==> c in s && c in {'-', '_', '.', '!', '~', '*', '\'', '(', ')',
                                                       ':', '/', '?', '#', '[', ']', '@', '$', '&', '+', ','}
  {
    var tokens := Tokens(s);
    EncodeIsText(s);
    RestoreAllActsOnTokens(tokens, Restored());
    LiteralsOfString(s, c);
    if c as int < 0x80 {
      SeparatorInText(tokens, c);
      SeparatorInText(RestoreTokens(tokens, Restored()), c);
      LiteralAfterRestoring(tokens, Restored(), c);
      SeparatorInTokens(s, c);
      RestoredCharacters(c);
    } else {
      if c in Encode(s) {
        CharactersOfText(tokens, c);
      }
      if c in EncodeReserved(s) {
        CharactersOfText(RestoreTokens(tokens, Restored()), c);
      }
    }
  }

  lemma RestoredCharacters(c: char)
    ensures c in Restored() <==> c in {'!', '*', '\'', '(', ')', ':', '/', '?', '#', '[', ']', '@', '$', '&', '+', ','}
  {
    var a, b := [':', '/', '?', '#', '[', ']', '@'], ['!', '$', '&', '\'', '(', ')', '*', '+', ','];
    assert Restored() == a + b;
  }
}
