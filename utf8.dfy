/** UTF-8 encoding of text (`str.encode('utf-8')`), as a sequence of bytes. */
module Utf8Codec {
  newtype byte = x: int | 0 <= x < 256

  /** The number of bytes a UTF-8 sequence has, read from its first byte. */
  function TamanhoPeloPrimeiro(b: byte): nat {
    if b < 0x80 then 1 else if b < 0xE0 then 2 else if b < 0xF0 then 3 else 4
  }

  /** The UTF-8 encoding of one character (RFC 3629, section 3). */
  function CodificarChar(c: char): (b: seq<byte>)
    ensures 1 <= |b| <= 4
    ensures TamanhoPeloPrimeiro(b[0]) == |b|
  {
    var n := c as int;
    if n < 0x80 then [n as byte]
    else if n < 0x800 then [(0xC0 + n / 64) as byte, (0x80 + n % 64) as byte]
    else if n < 0x10000 then
      [(0xE0 + n / 4096) as byte, (0x80 + (n / 64) % 64) as byte, (0x80 + n % 64) as byte]
    else
      [(0xF0 + n / 262144) as byte, (0x80 + (n / 4096) % 64) as byte, (0x80 + (n / 64) % 64) as byte,
       (0x80 + n % 64) as byte]
  }

  /** The code point a well-formed sequence of one to four bytes stands for. */
  function DecodificarChar(b: seq<byte>): int
    requires 1 <= |b| <= 4
  {
    if |b| == 1 then b[0] as int
    else if |b| == 2 then (b[0] as int - 0xC0) * 64 + (b[1] as int - 0x80)
    else if |b| == 3 then (b[0] as int - 0xE0) * 4096 + (b[1] as int - 0x80) * 64 + (b[2] as int - 0x80)
    else (b[0] as int - 0xF0) * 262144 + (b[1] as int - 0x80) * 4096 + (b[2] as int - 0x80) * 64 + (b[3] as int - 0x80)
  }

  lemma DecodificaCodificado(c: char)
    ensures DecodificarChar(CodificarChar(c)) == c as int
  {
    var n := c as int;
    if 0x800 <= n < 0x10000 {
      assert n == (n / 4096) * 4096 + ((n / 64) % 64) * 64 + n % 64;
    } else if 0x10000 <= n {
      assert n == (n / 262144) * 262144 + ((n / 4096) % 64) * 4096 + ((n / 64) % 64) * 64 + n % 64;
    }
  }

  /** Distinct characters have distinct encodings. */
  lemma CodificacaoInjetiva(c1: char, c2: char)
    requires CodificarChar(c1) == CodificarChar(c2)
    ensures c1 == c2
  {
    DecodificaCodificado(c1);
    DecodificaCodificado(c2);
  }

  /** The UTF-8 encoding of a text (`str.encode('utf-8')`). */
  function Utf8(s: string): (b: seq<byte>)
    ensures |b| >= |s|
    ensures s == [] <==> b == []
  {
    if s == [] then [] else CodificarChar(s[0]) + Utf8(s[1..])
  }

  lemma {:induction false} Utf8Concat(a: string, b: string)
    ensures Utf8(a + b) == Utf8(a) + Utf8(b)
  {
    if a == [] {
      assert a + b == b;
    } else {
      assert (a + b)[0] == a[0];
      assert (a + b)[1..] == a[1..] + b;
      Utf8Concat(a[1..], b);
    }
  }
}
