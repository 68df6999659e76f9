/** The unpadded base64url text of capability tokens (server/broker/capability.py, `_urlsafe` and
    the decoding inside `_decode`): section 5 of RFC 4648 without trailing '=' on the way out, and
    Python's lenient decoder, which skips what is not in the alphabet, on the way in. */
module Base64Url {
  import opened Wrappers

  type Byte = b: int | 0 <= b < 256

  type Sextet = x: int | 0 <= x < 64

  function Letter(x: Sextet): char {
    if x < 26 then ('A' as int + x) as char
    else if x < 52 then ('a' as int + x - 26) as char
    else if x < 62 then ('0' as int + x - 52) as char
    else if x == 62 then '-' else '_'
  }

  /** The decoder maps '-' and '_' onto '+' and '/', and so reads either pair. */
  function Value(c: char): Option<Sextet> {
    if 'A' <= c <= 'Z' then Some(c as int - 'A' as int)
    else if 'a' <= c <= 'z' then Some(c as int - 'a' as int + 26)
    else if '0' <= c <= '9' then Some(c as int - '0' as int + 52)
    else if c == '-' || c == '+' then Some(62)
    else if c == '_' || c == '/' then Some(63)
    else None
  }

  // ----------------------------------------------------------------- encoding

  function First(a: Byte): Sextet { a / 4 }

  function Second(a: Byte, b: Byte): Sextet { a % 4 * 16 + b / 16 }

  function Third(b: Byte, c: Byte): Sextet { b % 16 * 4 + c / 64 }

  function Fourth(c: Byte): Sextet { c % 64 }

  /** Three bytes make four groups of six bits; the last one or two bytes make two or three. */
  function Sextets(bytes: seq<Byte>): seq<Sextet> {
    match |bytes|
    case 0 => []
    case 1 => [First(bytes[0]), Second(bytes[0], 0)]
    case 2 => [First(bytes[0]), Second(bytes[0], bytes[1]), Third(bytes[1], 0)]
    case _ => Group(bytes[0], bytes[1], bytes[2]) + Sextets(bytes[3..])
  }

  function Group(a: Byte, b: Byte, c: Byte): seq<Sextet> { [First(a), Second(a, b), Third(b, c), Fourth(c)] }

  function Text(xs: seq<Sextet>): string { seq(|xs|, i requires 0 <= i < |xs| => Letter(xs[i])) }

  /** The pads that bring a length up to a multiple of four. */
  function Pads(length: nat): string {
    match length % 4
    case 0 => ""
    case 1 => "==="
    case 2 => "=="
    case _ => "="
  }

  function Padded(bytes: seq<Byte>): string { Text(Sextets(bytes)) + Pads(|Sextets(bytes)|) }

  function StripPadding(text: string): string {
    if text != "" && text[|text| - 1] == '=' then StripPadding(text[..|text| - 1]) else text
  }

  function Encode(bytes: seq<Byte>): string { StripPadding(Padded(bytes)) }

  // ----------------------------------------------------------------- decoding

  /** The decoder's state: characters of the current group of four, the bits left over from the
      last one, pads seen in a row, and whether a complete pad has ended the input. */
  datatype Machine = Machine(quad: nat, left: nat, pads: nat, out: seq<Byte>, done: bool)

  predicate Sane(m: Machine) {
    && m.quad < 4
    && (m.quad == 0 ==> m.left == 0) && (m.quad == 1 ==> m.left < 64)
    && (m.quad == 2 ==> m.left < 16) && (m.quad == 3 ==> m.left < 4)
  }

  function Shift(m: Machine, x: Sextet): (r: Machine)
    requires Sane(m) && !m.done
    ensures Sane(r)
  {
    match m.quad
    case 0 => m.(quad := 1, left := x, pads := 0)
    case 1 => m.(quad := 2, left := x % 16, pads := 0, out := m.out + [m.left * 4 + x / 16])
    case 2 => m.(quad := 3, left := x % 4, pads := 0, out := m.out + [m.left * 16 + x / 4])
    case _ => m.(quad := 0, left := 0, pads := 0, out := m.out + [m.left * 64 + x])
  }

  function Step(m: Machine, c: char): (r: Machine)
    requires Sane(m)
    ensures Sane(r)
  {
    if m.done then m
    else if c == '=' then
      if m.quad < 2 then m
      else m.(pads := m.pads + 1, done := m.quad + m.pads + 1 >= 4)
    else if Value(c).None? then m
    else Shift(m, Value(c).value)
  }

  function Feed(m: Machine, text: string): (r: Machine)
    requires Sane(m)
    ensures Sane(r)
    decreases |text|
  {
    if text == "" then m else Feed(Step(m, text[0]), text[1..])
  }

  const START := Machine(0, 0, 0, [], false)

  predicate Ascii(text: string) { forall i :: 0 <= i < |text| ==> text[i] < 128 as char }

  /** An incomplete group without its pads is an error. */
  function Finish(m: Machine): Option<seq<Byte>> { if m.done || m.quad == 0 then Some(m.out) else None }

  /** `base64.urlsafe_b64decode(value + "=" * (-len(value) % 4))`. */
  function Decode(text: string): Option<seq<Byte>> {
    if !Ascii(text) then None else Finish(Feed(START, text + Pads(|text|)))
  }

  // --------------------------------------------------------------- properties

  lemma LetterValue(x: Sextet)
    ensures Value(Letter(x)) == Some(x) && Letter(x) != '=' && Letter(x) != '.' && Letter(x) < 128 as char
  {
  }

  lemma {:induction false} FeedAppend(m: Machine, a: string, b: string)
    requires Sane(m)
    ensures Feed(m, a + b) == Feed(Feed(m, a), b)
    decreases |a|
  {
    if a == "" {
      assert a + b == b;
    } else {
      assert (a + b)[1..] == a[1..] + b;
      FeedAppend(Step(m, a[0]), a[1..], b);
    }
  }

  /** Only letters, so neither a pad nor the token separator. */
  predicate Letters(text: string) {
    forall i :: 0 <= i < |text| ==> text[i] != '=' && text[i] != '.' && text[i] < 128 as char && Value(text[i]).Some?
  }

  lemma TextLetters(xs: seq<Sextet>)
    ensures Letters(Text(xs))
  {
    forall i | 0 <= i < |xs| ensures Text(xs)[i] == Letter(xs[i]) && Value(Text(xs)[i]).Some? { LetterValue(xs[i]); }
    forall i | 0 <= i < |xs| ensures Text(xs)[i] != '=' && Text(xs)[i] != '.' && Text(xs)[i] < 128 as char {
      LetterValue(xs[i]);
    }
  }

  lemma StripOne(text: string)
    ensures StripPadding(text + "=") == StripPadding(text)
  {
    assert (text + "=")[..|text + "="| - 1] == text;
  }

  lemma StripPads(text: string, length: nat)
    requires text != "" ==> text[|text| - 1] != '='
    ensures StripPadding(text + Pads(length)) == text
  {
    StripOne(text);
    StripOne(text + "=");
    StripOne(text + "==");
    assert text + "==" == text + "=" + "=" && text + "===" == text + "==" + "=" && text + "" == text;
  }

  lemma EncodeIsText(bytes: seq<Byte>)
    ensures Encode(bytes) == Text(Sextets(bytes))
  {
    var xs := Sextets(bytes);
    TextLetters(xs);
    StripPads(Text(xs), |xs|);
  }

  /** Feeding letters is shifting sextets. */
  function Shifts(m: Machine, xs: seq<Sextet>): (r: Machine)
    requires Sane(m) && !m.done
    ensures Sane(r) && !r.done
    decreases |xs|
  {
    if xs == [] then m else Shifts(Shift(m, xs[0]), xs[1..])
  }

  lemma {:induction false} FeedText(m: Machine, xs: seq<Sextet>)
    requires Sane(m) && !m.done
    ensures Feed(m, Text(xs)) == Shifts(m, xs)
    decreases |xs|
  {
    if xs != [] {
      LetterValue(xs[0]);
      assert Text(xs)[0] == Letter(xs[0]) && Text(xs)[1..] == Text(xs[1..]);
      FeedText(Shift(m, xs[0]), xs[1..]);
    }
  }

  lemma ShiftsCons(m: Machine, x: Sextet, rest: seq<Sextet>)
    requires Sane(m) && !m.done
    ensures Shifts(m, [x] + rest) == Shifts(Shift(m, x), rest)
  {
    assert ([x] + rest)[1..] == rest;
  }

  lemma {:induction false} ShiftsAppend(m: Machine, xs: seq<Sextet>, ys: seq<Sextet>)
    requires Sane(m) && !m.done
    ensures Shifts(m, xs + ys) == Shifts(Shifts(m, xs), ys)
    decreases |xs|
  {
    if xs == [] {
      assert xs + ys == ys;
    } else {
      assert (xs + ys)[0] == xs[0] && (xs + ys)[1..] == xs[1..] + ys;
      ShiftsAppend(Shift(m, xs[0]), xs[1..], ys);
    }
  }

  /** The bits of a byte meet again. */
  lemma Bits(a: Byte, b: Byte, c: Byte)
    ensures First(a) * 4 + Second(a, b) / 16 == a && Second(a, b) % 16 == b / 16
    ensures b / 16 * 16 + Third(b, c) / 4 == b && Third(b, c) % 4 == c / 64
    ensures c / 64 * 64 + Fourth(c) == c
  {
  }

  function After(out: seq<Byte>, quad: nat, left: nat): Machine { Machine(quad, left, 0, out, false) }

  lemma ShiftFirst(m: Machine, a: Byte)
    requires Sane(m) && !m.done && m.quad == 0
    ensures Shift(m, First(a)) == After(m.out, 1, First(a))
  {
  }

  lemma ShiftSecond(out: seq<Byte>, a: Byte, b: Byte)
    ensures Shift(After(out, 1, First(a)), Second(a, b)) == After(out + [a], 2, b / 16)
  {
    Bits(a, b, 0);
  }

  lemma ShiftThird(out: seq<Byte>, b: Byte, c: Byte)
    ensures Shift(After(out, 2, b / 16), Third(b, c)) == After(out + [b], 3, c / 64)
  {
    Bits(0, b, c);
  }

  lemma ShiftFourth(out: seq<Byte>, c: Byte)
    ensures Shift(After(out, 3, c / 64), Fourth(c)) == After(out + [c], 0, 0)
  {
    Bits(0, 0, c);
  }

  lemma ShiftsTwo(m: Machine, a: Byte, b: Byte, rest: seq<Sextet>)
    requires Sane(m) && !m.done && m.quad == 0
    ensures Shifts(m, [First(a), Second(a, b)] + rest) == Shifts(After(m.out + [a], 2, b / 16), rest)
  {
    ShiftFirst(m, a);
    ShiftSecond(m.out, a, b);
    ShiftsCons(m, First(a), [Second(a, b)] + rest);
    ShiftsCons(After(m.out, 1, First(a)), Second(a, b), rest);
    assert [First(a), Second(a, b)] + rest == [First(a)] + ([Second(a, b)] + rest);
  }

  /** Three bytes leave the machine as their four groups brought them. */
  lemma GroupShifts(m: Machine, a: Byte, b: Byte, c: Byte)
    requires Sane(m) && !m.done && m.quad == 0
    ensures Shifts(m, Group(a, b, c)) == After(m.out + [a, b, c], 0, 0)
  {
    ShiftsTwo(m, a, b, [Third(b, c), Fourth(c)]);
    ShiftThird(m.out + [a], b, c);
    ShiftFourth(m.out + [a] + [b], c);
    ShiftsCons(After(m.out + [a], 2, b / 16), Third(b, c), [Fourth(c)]);
    ShiftsCons(After(m.out + [a] + [b], 3, c / 64), Fourth(c), []);
    assert Group(a, b, c) == [First(a), Second(a, b)] + [Third(b, c), Fourth(c)];
    assert [Third(b, c), Fourth(c)] == [Third(b, c)] + [Fourth(c)];
    assert [Fourth(c)] == [Fourth(c)] + [];
    assert m.out + [a] + [b] + [c] == m.out + [a, b, c];
  }

  lemma TailShifts(m: Machine, bytes: seq<Byte>)
    requires Sane(m) && !m.done && m.quad == 0 && 0 < |bytes| < 3
    ensures Shifts(m, Sextets(bytes)) == After(m.out + bytes, |bytes| + 1, 0)
  {
    var a := bytes[0];
    if |bytes| == 1 {
      ShiftsTwo(m, a, 0, []);
      assert Sextets(bytes) == [First(a), Second(a, 0)] + [] && bytes == [a];
    } else {
      var b := bytes[1];
      ShiftsTwo(m, a, b, [Third(b, 0)]);
      ShiftThird(m.out + [a], b, 0);
      ShiftsCons(After(m.out + [a], 2, b / 16), Third(b, 0), []);
      assert Sextets(bytes) == [First(a), Second(a, b)] + [Third(b, 0)] && [Third(b, 0)] == [Third(b, 0)] + [];
      assert m.out + [a] + [b] == m.out + bytes;
    }
  }

  lemma {:induction false} SextetsShift(m: Machine, bytes: seq<Byte>)
    requires Sane(m) && !m.done && m.quad == 0
    ensures var e := Shifts(m, Sextets(bytes));
      e.out == m.out + bytes && e.quad != 1
    decreases |bytes|
  {
    if |bytes| >= 3 {
      var a, b, c, rest := bytes[0], bytes[1], bytes[2], bytes[3..];
      ShiftsAppend(m, Group(a, b, c), Sextets(rest));
      GroupShifts(m, a, b, c);
      SextetsShift(After(m.out + [a, b, c], 0, 0), rest);
      assert bytes == [a, b, c] + rest;
      assert m.out + bytes == m.out + [a, b, c] + rest;
    } else if |bytes| > 0 {
      TailShifts(m, bytes);
    } else {
      assert m.out + bytes == m.out;
    }
  }

  /** The pads that the decoder is given complete a group of two or three letters, and only those. */
  lemma PadsComplete(m: Machine, length: nat)
    requires Sane(m) && !m.done && m.quad == length % 4 && (length > 0 ==> m.pads == 0)
    ensures var e := Feed(m, Pads(length));
      e.out == m.out && (e.done || e.quad == 0 <==> m.quad != 1)
  {
    assert "==="[1..] == "==" && "=="[1..] == "=" && "="[1..] == "";
    if m.quad == 2 {
      assert Feed(m, "==") == Step(Step(m, '='), '=');
    } else if m.quad == 1 {
      assert Feed(m, "===") == m;
    }
  }

  /** Decoding undoes encoding, for all byte strings. */
  lemma RoundTrip(bytes: seq<Byte>)
    ensures Decode(Encode(bytes)) == Some(bytes)
  {
    var xs := Sextets(bytes);
    var text := Text(xs);
    EncodeIsText(bytes);
    TextLetters(xs);
    var m := DecodeLetters(text);
    FeedText(START, xs);
    SextetsShift(START, bytes);
    assert START.out + bytes == bytes;
  }

  lemma LettersAscii(text: string)
    requires Letters(text)
    ensures Ascii(text)
  {
  }

  lemma DecodeLetters(text: string) returns (m: Machine)
    requires Letters(text)
    ensures m == Feed(START, text) && m.quad == |text| % 4
    ensures Decode(text) == if m.quad == 1 then None else Some(m.out)
  {
    m := Feed(START, text);
    LettersAscii(text);
    FeedLetters(START, text);
    FeedPadded(text, m);
  }

  lemma FeedPadded(text: string, m: Machine)
    requires m == Feed(START, text) && !m.done && m.quad == |text| % 4 && (text != "" ==> m.pads == 0)
    requires Ascii(text)
    ensures Decode(text) == if m.quad == 1 then None else Some(m.out)
  {
    var pads := Pads(|text|);
    FeedAppend(START, text, pads);
    PadsComplete(m, |text|);
  }

  /** The text is over the URL-safe alphabet and as short as section 5 allows. */
  lemma EncodeAlphabet(bytes: seq<Byte>)
    ensures Letters(Encode(bytes)) && |Encode(bytes)| == (|bytes| * 4 + 2) / 3
  {
    EncodeIsText(bytes);
    TextLetters(Sextets(bytes));
    SextetsLength(bytes);
  }

  lemma {:induction false} SextetsLength(bytes: seq<Byte>)
    ensures |Sextets(bytes)| == (|bytes| * 4 + 2) / 3
    decreases |bytes|
  {
    if |bytes| >= 3 { SextetsLength(bytes[3..]); }
  }

  /** Letters only: the group position counts them. */
  lemma {:induction false} FeedLetters(m: Machine, text: string)
    requires Sane(m) && !m.done && Letters(text)
    ensures !Feed(m, text).done && Feed(m, text).quad == (m.quad + |text|) % 4
    ensures text != "" ==> Feed(m, text).pads == 0
    decreases |text|
  {
    if text != "" { FeedLetters(Step(m, text[0]), text[1..]); }
  }

  /** Which texts over the alphabet decode: all but those whose length is one more than a multiple
      of four. */
  lemma DecodableLengths(text: string)
    requires Letters(text)
    ensures Decode(text).Some? <==> |text| % 4 != 1
  {
    var m := DecodeLetters(text);
  }
}
