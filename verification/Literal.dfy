/**
 String literals: how they are printed, `clang/print/utf8.c`, and how they are read, `clang/parse/utf8.c`,
 `clang/parse/term/chr.c` and `clang/parse/term/str.c`. Bytes are numbers below 256.
 */
module Literal {
  const QUOTE: nat := 34
  const BACKSLASH: nat := 92

  datatype Mode = EscChar | EscStr

  // ---------------------------------------------------------------------------
  // Printing
  // ---------------------------------------------------------------------------

  /** `print_utf8`; the first byte of four is cut to a byte when it is put out. */
  function Encode(c: nat): seq<nat> {
    if c < 0x80 then [c]
    else if c < 0x800 then [0xC0 + c / 64, 0x80 + c % 64]
    else if c < 0x10000 then [0xE0 + c / 4096, 0x80 + c / 64 % 64, 0x80 + c % 64]
    else [0xF0 + c / 0x40000 % 16, 0x80 + c / 4096 % 64, 0x80 + c / 64 % 64, 0x80 + c % 64]
  }

  /** `print_utf8_can_escape` */
  predicate CanEscape(c: nat, mode: Mode) {
    && c <= 0x10FFFF && !(0xD800 <= c <= 0xDFFF)
    && (c in {10, 9, 13, 0} || (c >= 0x20 && c != 0x7F && !(0x80 <= c <= 0x9F)))
  }

  /** The letter after the backslash, if the code point has one. */
  function Letter(c: nat, mode: Mode): nat {
    if c == 10 then 110
    else if c == 9 then 116
    else if c == 13 then 114
    else if c == 0 then 48
    else if c == BACKSLASH then BACKSLASH
    else if c == 39 && mode == EscChar then 39
    else if c == QUOTE && mode == EscStr then QUOTE
    else 0
  }

  /** `print_utf8_escape` for a code point that can be printed. */
  function Escape(c: nat, mode: Mode): seq<nat> {
    if Letter(c, mode) != 0 then [BACKSLASH, Letter(c, mode)] else Encode(c)
  }

  function EscapeAll(cs: seq<nat>): seq<nat> {
    if cs == [] then [] else Escape(cs[0], EscStr) + EscapeAll(cs[1..])
  }

  // ---------------------------------------------------------------------------
  // Reading
  // ---------------------------------------------------------------------------

  datatype Result<T> = Ok(value: T) | Error

  function ByteAt(src: seq<nat>, i: nat): nat {
    if i < |src| then src[i] else 0
  }

  /** What is read from a position, and the position after it. */
  datatype Read = Read(c: nat, pos: nat)

  /** `parse_utf8` */
  function Decode(src: seq<nat>, i: nat): Read {
    var b := ByteAt(src, i);
    if b < 0x80 then Read(b, i + 1)
    else if b / 32 == 6 && i + 1 < |src| then Read(b % 32 * 64 + src[i + 1] % 64, i + 2)
    else if b / 16 == 14 && i + 2 < |src| then Read(b % 16 * 4096 + src[i + 1] % 64 * 64 + src[i + 2] % 64, i + 3)
    else if b / 8 == 30 && i + 3 < |src| then
      Read(b % 8 * 0x40000 + src[i + 1] % 64 * 4096 + src[i + 2] % 64 * 64 + src[i + 3] % 64, i + 4)
    else Read(b, i + 1)
  }

  function Unescape(b: nat): nat {
    if b == 110 then 10
    else if b == 116 then 9
    else if b == 114 then 13
    else if b == 48 then 0
    else b
  }

  /** `parse_char_esc` */
  function CharAt(src: seq<nat>, i: nat): Result<Read> {
    if ByteAt(src, i) == 0 then Error
    else if ByteAt(src, i) == BACKSLASH then
      if ByteAt(src, i + 1) == 0 then Error else Ok(Read(Unescape(src[i + 1]), i + 2))
    else Ok(Decode(src, i))
  }

  datatype Text = Text(cs: seq<nat>, pos: nat)

  /** The characters up to the closing fence. */
  function TextAt(src: seq<nat>, i: nat, fence: nat): Result<Text>
    requires fence != 0
    decreases |src| - i
  {
    if ByteAt(src, i) == fence then Ok(Text([], i + 1))
    else
      match CharAt(src, i)
      case Error => Error
      case Ok(r) =>
        match TextAt(src, r.pos, fence)
        case Error => Error
        case Ok(t) => Ok(Text([r.c] + t.cs, t.pos))
  }

  /** Lists of characters, as `CON` and `NIL`. */
  datatype List = Nil | Con(head: nat, tail: List)

  function FromSeq(cs: seq<nat>): List {
    if cs == [] then Nil else Con(cs[0], FromSeq(cs[1..]))
  }

  class Reader {
    const src: seq<nat>
    var pos: nat

    constructor (src: seq<nat>)
      ensures this.src == src && pos == 0
    {
      this.src, pos := src, 0;
    }

    method Advance()
      modifies this
      ensures pos == old(pos) + 1
    {
      pos := pos + 1;
    }

    method Utf8() returns (c: nat)
      requires pos < |src|
      modifies this
      ensures Read(c, pos) == Decode(src, old(pos))
    {
      var b0 := src[pos];
      Advance();
      if b0 < 0x80 {
        return b0;
      }
      if b0 / 32 == 6 && pos < |src| {
        var b1 := src[pos];
        Advance();
        return b0 % 32 * 64 + b1 % 64;
      }
      if b0 / 16 == 14 && pos + 1 < |src| {
        var b1 := src[pos];
        Advance();
        var b2 := src[pos];
        Advance();
        return b0 % 16 * 4096 + b1 % 64 * 64 + b2 % 64;
      }
      if b0 / 8 == 30 && pos + 2 < |src| {
        var b1 := src[pos];
        Advance();
        var b2 := src[pos];
        Advance();
        var b3 := src[pos];
        Advance();
        return b0 % 8 * 0x40000 + b1 % 64 * 4096 + b2 % 64 * 64 + b3 % 64;
      }
      return b0;
    }

    method CharEsc() returns (r: Result<nat>)
      modifies this
      ensures CharAt(src, old(pos)).Error? ==> r.Error?
      ensures CharAt(src, old(pos)).Ok? ==>
                r == Ok(CharAt(src, old(pos)).value.c) && pos == CharAt(src, old(pos)).value.pos
    {
      if ByteAt(src, pos) == 0 {
        return Error;
      }
      if ByteAt(src, pos) == BACKSLASH {
        Advance();
        var b := ByteAt(src, pos);
        if b == 0 {
          return Error;
        }
        Advance();
        return Ok(Unescape(b));
      }
      var c := Utf8();
      return Ok(c);
    }

    /** `parse_term_str`: the characters up to the fence it starts with, as a list. */
    method TermStr() returns (r: Result<List>)
      requires ByteAt(src, pos) != 0
      modifies this
      ensures var t := TextAt(src, old(pos) + 1, src[old(pos)]);
              if t.Error? then r.Error? else r == Ok(FromSeq(t.value.cs)) && pos == t.value.pos
    {
      var fence := ByteAt(src, pos);
      Advance();
      var cs: seq<nat> := [];
      ghost var start := TextAt(src, pos, fence);
      OntoNone(start);
      while ByteAt(src, pos) != fence
        invariant start == Onto(cs, TextAt(src, pos, fence))
        decreases |src| - pos
      {
        ghost var p := pos;
        var c := CharEsc();
        if c.Error? {
          return Error;
        }
        OntoOnto(cs, c.value, TextAt(src, pos, fence));
        cs := cs + [c.value];
      }
      assert start == Ok(Text(cs + [], pos + 1));
      assert cs + [] == cs;
      Advance();
      var t := ToList(cs);
      r := Ok(t);
    }
  }

  /** The list is built from its end. */
  method ToList(cs: seq<nat>) returns (t: List)
    ensures t == FromSeq(cs)
  {
    var i := |cs|;
    t := Nil;
    while i > 0
      invariant 0 <= i <= |cs| && t == FromSeq(cs[i..])
    {
      i := i - 1;
      assert cs[i..] == [cs[i]] + cs[i + 1..];
      t := Con(cs[i], t);
    }
    assert cs[0..] == cs;
  }

  function Onto(cs: seq<nat>, r: Result<Text>): Result<Text> {
    match r
    case Error => Error
    case Ok(t) => Ok(Text(cs + t.cs, t.pos))
  }

  lemma OntoNone(r: Result<Text>)
    ensures Onto([], r) == r
  {
    if r.Ok? {
      assert [] + r.value.cs == r.value.cs;
    }
  }

  lemma OntoOnto(cs: seq<nat>, c: nat, r: Result<Text>)
    ensures Onto(cs, Onto([c], r)) == Onto(cs + [c], r)
  {
    if r.Ok? {
      assert cs + ([c] + r.value.cs) == cs + [c] + r.value.cs;
    }
  }

  // ---------------------------------------------------------------------------
  // Round trips
  // ---------------------------------------------------------------------------

  lemma Two(c: nat)
    requires 0x80 <= c < 0x800
    ensures (0xC0 + c / 64) / 32 == 6 && (0xC0 + c / 64) % 32 * 64 + (0x80 + c % 64) % 64 == c
  {
  }

  lemma Three(c: nat)
    requires 0x800 <= c < 0x10000
    ensures var b := 0xE0 + c / 4096; b / 32 == 7 && b / 16 == 14 && b % 16 == c / 4096
    ensures c / 4096 * 4096 + (0x80 + c / 64 % 64) % 64 * 64 + (0x80 + c % 64) % 64 == c
  {
    assert c / 4096 == c / 64 / 64;
  }

  lemma Four(c: nat)
    requires 0x10000 <= c < 0x200000
    ensures var b := 0xF0 + c / 0x40000 % 16; b / 32 == 7 && b / 16 == 15 && b / 8 == 30 && b % 8 == c / 0x40000
    ensures c / 0x40000 * 0x40000 + (0x80 + c / 4096 % 64) % 64 * 4096 + (0x80 + c / 64 % 64) % 64 * 64
              + (0x80 + c % 64) % 64 == c
  {
    assert c / 4096 == c / 64 / 64 && c / 0x40000 == c / 4096 / 64;
  }

  /** The bytes `bs` are read at `i`. */
  predicate At(src: seq<nat>, i: nat, bs: seq<nat>) {
    i + |bs| <= |src| && forall k :: 0 <= k < |bs| ==> src[i + k] == bs[k]
  }

  lemma DecodeFour(src: seq<nat>, i: nat, c: nat)
    requires At(src, i, Encode(c)) && 0x10000 <= c
    ensures Decode(src, i) == Read(c, i + 4) <==> c < 0x200000
  {
    var e := Encode(c);
    assert src[i + 0] == e[0] && src[i + 1] == e[1] && src[i + 2] == e[2] && src[i + 3] == e[3];
    if c < 0x200000 {
      Four(c);
    } else {
      var b := ByteAt(src, i);
      assert b / 32 == 7 && b / 16 == 15 && b < 256;
      assert b % 8 < 8 && src[i + 1] % 64 < 64 && src[i + 2] % 64 < 64 && src[i + 3] % 64 < 64;
    }
  }

  lemma DecodeThree(src: seq<nat>, i: nat, c: nat)
    requires At(src, i, Encode(c)) && 0x800 <= c < 0x10000
    ensures Decode(src, i) == Read(c, i + 3)
  {
    var e := Encode(c);
    assert src[i + 0] == e[0] && src[i + 1] == e[1] && src[i + 2] == e[2];
    Three(c);
  }

  lemma DecodeTwo(src: seq<nat>, i: nat, c: nat)
    requires At(src, i, Encode(c)) && c < 0x800
    ensures Decode(src, i) == Read(c, i + |Encode(c)|)
  {
    var e := Encode(c);
    assert src[i + 0] == e[0];
    if c >= 0x80 {
      assert src[i + 1] == e[1];
      Two(c);
    }
  }

  /** A code point comes back from its bytes exactly when it has at most 21 bits. */
  lemma Utf8Exact(src: seq<nat>, i: nat, c: nat)
    requires At(src, i, Encode(c))
    ensures Decode(src, i) == Read(c, i + |Encode(c)|) <==> c < 0x200000
  {
    if c < 0x800 {
      DecodeTwo(src, i, c);
    } else if c < 0x10000 {
      DecodeThree(src, i, c);
    } else {
      DecodeFour(src, i, c);
    }
  }

  /** What is escaped reads back as one character, and no fence starts it. */
  lemma EscapeReads(src: seq<nat>, i: nat, c: nat, mode: Mode)
    requires CanEscape(c, mode) && At(src, i, Escape(c, mode))
    ensures CharAt(src, i) == Ok(Read(c, i + |Escape(c, mode)|))
    ensures ByteAt(src, i) != (if mode == EscStr then QUOTE else 39)
  {
    var e := Escape(c, mode);
    assert src[i + 0] == e[0];
    if Letter(c, mode) == 0 {
      Utf8Exact(src, i, c);
    } else {
      assert src[i + 1] == e[1];
    }
  }

  /** A printed string reads back as the string it was printed from. */
  lemma {:induction false} LiteralReads(pre: seq<nat>, cs: seq<nat>, post: seq<nat>)
    requires forall i :: 0 <= i < |cs| ==> CanEscape(cs[i], EscStr)
    ensures TextAt(pre + EscapeAll(cs) + [QUOTE] + post, |pre|, QUOTE) == Ok(Text(cs, |pre| + |EscapeAll(cs)| + 1))
    decreases |cs|
  {
    var src := pre + EscapeAll(cs) + [QUOTE] + post;
    if cs == [] {
      assert src[|pre|] == QUOTE;
    } else {
      var e, more := Escape(cs[0], EscStr), EscapeAll(cs[1..]);
      assert src == pre + e + (more + [QUOTE] + post);
      assert src == (pre + e) + more + [QUOTE] + post;
      assert At(src, |pre|, e);
      EscapeReads(src, |pre|, cs[0], EscStr);
      LiteralReads(pre + e, cs[1..], post);
      assert |pre + e| == |pre| + |e| && cs == [cs[0]] + cs[1..];
      assert CharAt(src, |pre|) == Ok(Read(cs[0], |pre| + |e|));
    }
  }
}
