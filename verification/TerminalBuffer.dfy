/** The bounded output buffer of an ACP terminal (crates/agent/src/acp_session.rs, `Terminal::append`). */
module TerminalBuffer {
  import opened ByteLines

  /** A Unicode scalar value: a code point that is not a surrogate. */
  type Scalar = c: int | 0 <= c < 0xD800 || 0xE000 <= c < 0x11_0000

  /** UTF-8, section 3 of RFC 3629. */
  function Encode(c: Scalar): (r: seq<Byte>)
    ensures 1 <= |r| <= 4
  {
    if c < 0x80 then [c]
    else if c < 0x800 then [0xC0 + c / 0x40, 0x80 + c % 0x40]
    else if c < 0x1_0000 then [0xE0 + c / 0x1000, 0x80 + c / 0x40 % 0x40, 0x80 + c % 0x40]
    else [0xF0 + c / 0x4_0000, 0x80 + c / 0x1000 % 0x40, 0x80 + c / 0x40 % 0x40, 0x80 + c % 0x40]
  }

  predicate IsContinuation(b: Byte) {
    0x80 <= b < 0xC0
  }

  /** `str::is_char_boundary`: either end, or in front of a byte that starts a character. */
  predicate IsBoundary(s: seq<Byte>, i: nat) {
    i == 0 || i == |s| || (i < |s| && !IsContinuation(s[i]))
  }

  /** Where the search that starts at `cut` stops: the first boundary at or after it. */
  function NextBoundary(s: seq<Byte>, cut: nat): (r: nat)
    requires cut <= |s|
    ensures cut <= r <= |s| && IsBoundary(s, r)
    ensures forall j :: cut <= j < r ==> !IsBoundary(s, j)
    decreases |s| - cut
  {
    if IsBoundary(s, cut) then cut else NextBoundary(s, cut + 1)
  }

  /** A character as bytes: one that starts it, then continuation bytes only. */
  predicate IsChar(c: seq<Byte>) {
    c != [] && !IsContinuation(c[0]) && forall i :: 1 <= i < |c| ==> IsContinuation(c[i])
  }

  type Char = c: seq<Byte> | IsChar(c) witness [0]

  lemma EncodeIsChar(c: Scalar)
    ensures IsChar(Encode(c))
  {
  }

  function Chars(text: seq<Scalar>): seq<Char> {
    if text == [] then []
    else
      EncodeIsChar(text[0]);
      [Encode(text[0])] + Chars(text[1..])
  }

  function Bytes(text: seq<Char>): seq<Byte> {
    if text == [] then [] else text[0] + Bytes(text[1..])
  }

  /** The longest suffix of whole characters that fits in `limit` bytes. */
  function LongestSuffix(text: seq<Char>, limit: nat): (r: seq<Char>)
    ensures |Bytes(r)| <= limit
  {
    if |Bytes(text)| <= limit then text else LongestSuffix(text[1..], limit)
  }

  datatype Buffer = Buffer(output: seq<Byte>, truncated: bool)

  const EMPTY := Buffer([], false)

  function Append(buffer: Buffer, text: seq<Char>, limit: nat): Buffer {
    var output := buffer.output + Bytes(text);
    if |output| <= limit then Buffer(output, buffer.truncated)
    else Buffer(output[NextBoundary(output, |output| - limit)..], true)
  }

  function AppendAll(chunks: seq<seq<Char>>, limit: nat): Buffer {
    if chunks == [] then EMPTY
    else Append(AppendAll(chunks[..|chunks| - 1], limit), chunks[|chunks| - 1], limit)
  }

  function Concat(chunks: seq<seq<Char>>): seq<Char> {
    if chunks == [] then [] else Concat(chunks[..|chunks| - 1]) + chunks[|chunks| - 1]
  }

  /**
   * The output and flag of one terminal. How a chunk of bytes decodes is the standard
   * library's lossy decoding, which the model takes as a parameter.
   */
  class Terminal {
    var output: seq<Byte>
    var truncated: bool
    const decode: seq<Byte> -> seq<Scalar>

    constructor (decode: seq<Byte> -> seq<Scalar>)
      ensures this.decode == decode && View() == EMPTY
    {
      this.decode := decode;
      output, truncated := [], false;
    }

    function View(): Buffer
      reads this
    {
      Buffer(output, truncated)
    }

    method AppendBytes(bytes: seq<Byte>, limit: nat)
      modifies this`output, this`truncated
      ensures View() == Append(old(View()), Chars(decode(bytes)), limit)
    {
      output := output + Bytes(Chars(decode(bytes)));
      if |output| > limit {
        var cut := |output| - limit;
        while !IsBoundary(output, cut)
          invariant |output| - limit <= cut <= |output|
          invariant NextBoundary(output, |output| - limit) == NextBoundary(output, cut)
          decreases |output| - cut
        {
          cut := cut + 1;
        }
        output := output[cut..];
        truncated := true;
      }
    }
  }

  // ---------------------------------------------------------------- proofs

  lemma {:induction false} BytesAppend(a: seq<Char>, b: seq<Char>)
    ensures Bytes(a + b) == Bytes(a) + Bytes(b)
  {
    if a == [] {
      assert a + b == b;
    } else {
      assert (a + b)[1..] == a[1..] + b;
      BytesAppend(a[1..], b);
    }
  }

  /** Nothing longer than the longest suffix fits, and it is a suffix. */
  lemma {:induction false} LongestSuffixIsLongest(text: seq<Char>, limit: nat)
    ensures var k := |text| - |LongestSuffix(text, limit)|;
      && 0 <= k && LongestSuffix(text, limit) == text[k..]
      && (k > 0 ==> |Bytes(text[k - 1..])| > limit)
  {
    if |Bytes(text)| > limit {
      LongestSuffixIsLongest(text[1..], limit);
      var k := |text| - |LongestSuffix(text, limit)|;
      assert text[1..][k - 1..] == text[k..];
      assert if k > 1 then text[1..][k - 2..] == text[k - 1..] else text[k - 1..] == text;
    }
  }

  lemma NextBoundaryIs(s: seq<Byte>, cut: nat, r: nat)
    requires cut <= r <= |s| && IsBoundary(s, r) && forall j :: cut <= j < r ==> !IsBoundary(s, j)
    ensures NextBoundary(s, cut) == r
  {
  }

  /** A search that starts behind the first character stays behind it. */
  lemma NextBoundaryBehind(c: Char, text: seq<Char>, cut: nat)
    requires cut <= |Bytes(text)|
    ensures NextBoundary(c + Bytes(text), |c| + cut) == |c| + NextBoundary(Bytes(text), cut)
  {
    var s, rest := c + Bytes(text), Bytes(text);
    assert rest != [] ==> rest[0] == text[0][0];
    assert forall j :: 0 <= j < |rest| ==> s[|c| + j] == rest[j];
    assert forall j :: |c| <= j <= |s| ==> (IsBoundary(s, j) <==> IsBoundary(rest, j - |c|));
    NextBoundaryIs(s, |c| + cut, |c| + NextBoundary(rest, cut));
  }

  /** A search that starts inside the first character stops at its end. */
  lemma NextBoundaryInside(c: Char, text: seq<Char>, cut: nat)
    requires 0 < cut <= |c|
    ensures NextBoundary(c + Bytes(text), cut) == |c|
  {
    var s, rest := c + Bytes(text), Bytes(text);
    assert rest != [] ==> rest[0] == text[0][0];
    assert rest != [] ==> s[|c|] == rest[0];
    assert forall j :: 0 < j < |c| ==> s[j] == c[j];
    NextBoundaryIs(s, cut, |c|);
  }

  lemma SliceBehind(c: seq<Byte>, rest: seq<Byte>, at: nat)
    requires at <= |rest|
    ensures (c + rest)[|c| + at..] == rest[at..]
  {
  }

  lemma CutBehind(c: Char, text: seq<Char>, limit: nat)
    requires |Bytes(text)| > limit
    ensures var s, rest := c + Bytes(text), Bytes(text);
      s[NextBoundary(s, |s| - limit)..] == rest[NextBoundary(rest, |rest| - limit)..]
  {
    var rest := Bytes(text);
    NextBoundaryBehind(c, text, |rest| - limit);
    SliceBehind(c, rest, NextBoundary(rest, |rest| - limit));
  }

  lemma CutInside(c: Char, text: seq<Char>, limit: nat)
    requires |Bytes(text)| <= limit < |c| + |Bytes(text)|
    ensures var s := c + Bytes(text); s[NextBoundary(s, |s| - limit)..] == Bytes(text)
  {
    var rest := Bytes(text);
    NextBoundaryInside(c, text, |c + rest| - limit);
    SliceBehind(c, rest, 0);
  }

  /** Cutting at the first boundary that fits leaves exactly the longest whole-character suffix. */
  lemma {:induction false} CutIsLongestSuffix(text: seq<Char>, limit: nat)
    requires |Bytes(text)| > limit
    ensures var s := Bytes(text);
      s[NextBoundary(s, |s| - limit)..] == Bytes(LongestSuffix(text, limit))
  {
    if |Bytes(text[1..])| <= limit {
      CutInside(text[0], text[1..], limit);
    } else {
      CutBehind(text[0], text[1..], limit);
      CutIsLongestSuffix(text[1..], limit);
    }
  }

  /** What was discarded on the way never mattered. */
  lemma {:induction false} SuffixOfSuffix(text: seq<Char>, more: seq<Char>, limit: nat)
    ensures LongestSuffix(LongestSuffix(text, limit) + more, limit) == LongestSuffix(text + more, limit)
  {
    if |Bytes(text)| > limit {
      SuffixOfSuffix(text[1..], more, limit);
      BytesAppend(text, more);
      assert (text + more)[1..] == text[1..] + more;
    }
  }

  lemma AppendToSuffix(text: seq<Char>, more: seq<Char>, limit: nat)
    ensures Append(Buffer(Bytes(LongestSuffix(text, limit)), |Bytes(text)| > limit), more, limit)
         == Buffer(Bytes(LongestSuffix(text + more, limit)), |Bytes(text + more)| > limit)
  {
    var kept := LongestSuffix(text, limit);
    BytesAppend(kept, more);
    BytesAppend(text, more);
    SuffixOfSuffix(text, more, limit);
    if |Bytes(kept + more)| > limit {
      CutIsLongestSuffix(kept + more, limit);
      SuffixNotLonger(text, limit);
    }
  }

  lemma {:induction false} SuffixNotLonger(text: seq<Char>, limit: nat)
    ensures |Bytes(LongestSuffix(text, limit))| <= |Bytes(text)|
  {
    if |Bytes(text)| > limit {
      SuffixNotLonger(text[1..], limit);
    }
  }

  /**
   * After any sequence of appends the output is the longest suffix of everything appended that
   * is made of whole characters and fits, and the flag tells whether more than fits was appended.
   */
  lemma {:induction false} OutputIsLongestSuffix(chunks: seq<seq<Char>>, limit: nat)
    ensures AppendAll(chunks, limit)
         == Buffer(Bytes(LongestSuffix(Concat(chunks), limit)), |Bytes(Concat(chunks))| > limit)
  {
    if chunks != [] {
      var init, last := chunks[..|chunks| - 1], chunks[|chunks| - 1];
      OutputIsLongestSuffix(init, limit);
      AppendToSuffix(Concat(init), last, limit);
    }
  }

  /** How the text was cut into chunks leaves no trace. */
  lemma ChunksDoNotMatter(a: seq<seq<Char>>, b: seq<seq<Char>>, limit: nat)
    requires Concat(a) == Concat(b)
    ensures AppendAll(a, limit) == AppendAll(b, limit)
  {
    OutputIsLongestSuffix(a, limit);
    OutputIsLongestSuffix(b, limit);
  }

  // ---------------------------------------------------------------- the bytes of a character

  /** How many bytes a lead byte announces, section 3 of RFC 3629. */
  function Announced(lead: Byte): nat {
    if lead < 0x80 then 1 else if lead < 0xE0 then 2 else if lead < 0xF0 then 3 else 4
  }

  /** The number that a character's bytes spell, read off their low bits. */
  function Spelled(c: seq<Byte>): int
    requires c != [] && |c| == Announced(c[0])
  {
    if |c| == 1 then c[0]
    else if |c| == 2 then Low(c[0], 0xC0) * 0x40 + Low(c[1], 0x80)
    else if |c| == 3 then (Low(c[0], 0xE0) * 0x40 + Low(c[1], 0x80)) * 0x40 + Low(c[2], 0x80)
    else ((Low(c[0], 0xF0) * 0x40 + Low(c[1], 0x80)) * 0x40 + Low(c[2], 0x80)) * 0x40 + Low(c[3], 0x80)
  }

  /** A byte without its marker bits. */
  function Low(byte: int, marker: int): int {
    byte - marker
  }

  /** Reading a scalar's bytes gives the scalar back, in no more bytes than it needs. */
  lemma EncodedIsRead(c: Scalar)
    ensures var bytes := Encode(c);
      && |bytes| == Announced(bytes[0]) && Spelled(bytes) == c
      && |bytes| == (if c < 0x80 then 1 else if c < 0x800 then 2 else if c < 0x1_0000 then 3 else 4)
  {
    if c >= 0x1_0000 {
      assert c / 0x1000 == (c / 0x4_0000) * 0x40 + c / 0x1000 % 0x40;
      assert c / 0x40 == (c / 0x1000) * 0x40 + c / 0x40 % 0x40;
    } else if c >= 0x800 {
      assert c / 0x40 == (c / 0x1000) * 0x40 + c / 0x40 % 0x40;
    }
  }
}
