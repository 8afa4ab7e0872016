/**
 The command frame sent on every timer tick: the three commanded PWM values in
 the fixed order motor 1, motor 2, motor 3, written as
 `{"mot1":<a>,"mot2":<b>,"mot3":<c>}` and terminated by a line feed. The
 decoder is the frame's partner: it recovers the three values from any frame.
 */
module CommandFrame {
  import opened Wrappers
  import opened Decimal

  const Open := "{\"mot1\":"
  const Key2 := ",\"mot2\":"
  const Key3 := ",\"mot3\":"
  const Close := "}"
  const LineEnd := "\n"

  /** No line feed and nothing outside ASCII, so `toLatin1` keeps every character. */
  predicate PlainText(s: string) {
    forall k :: 0 <= k < |s| ==> s[k] != '\n' && s[k] as int < 128
  }

  lemma PlainConcat(a: string, b: string)
    requires PlainText(a) && PlainText(b)
    ensures PlainText(a + b)
  {
    forall k | 0 <= k < |a + b| ensures (a + b)[k] != '\n' && (a + b)[k] as int < 128 {
      if k >= |a| { assert (a + b)[k] == b[k - |a|]; }
    }
  }

  /** A rendered number holds only digits and a sign. */
  lemma NumberIsPlain(i: int)
    ensures PlainText(IntToDecimal(i))
  {
    var s := IntToDecimal(i);
    if i < 0 {
      forall k | 0 <= k < |s| ensures s[k] != '\n' && s[k] as int < 128 {
        if k > 0 { assert s[k] == s[1..][k - 1]; }
      }
    }
  }

  lemma LiteralsArePlain()
    ensures PlainText(Open) && PlainText(Key2) && PlainText(Key3) && PlainText(Close)
  {
  }

  /** The bytes written to the link for one tick: the template with its three placeholders
      substituted, followed by a line feed. */
  function Frame(mot1: int, mot2: int, mot3: int): (f: string)
    ensures |f| > |Open| && f[..|Open|] == Open
    ensures f[|f| - 1] == '\n'
    ensures PlainText(f[..|f| - 1])
  {
    var text := Open + (IntToDecimal(mot1) + (Key2 + (IntToDecimal(mot2) + (Key3 + (IntToDecimal(mot3) + Close)))));
    assert PlainText(text) by {
      LiteralsArePlain();
      NumberIsPlain(mot1);
      NumberIsPlain(mot2);
      NumberIsPlain(mot3);
      PlainConcat(IntToDecimal(mot3), Close);
      PlainConcat(Key3, IntToDecimal(mot3) + Close);
      PlainConcat(IntToDecimal(mot2), Key3 + (IntToDecimal(mot3) + Close));
      PlainConcat(Key2, IntToDecimal(mot2) + (Key3 + (IntToDecimal(mot3) + Close)));
      PlainConcat(IntToDecimal(mot1), Key2 + (IntToDecimal(mot2) + (Key3 + (IntToDecimal(mot3) + Close))));
      PlainConcat(Open, IntToDecimal(mot1) + (Key2 + (IntToDecimal(mot2) + (Key3 + (IntToDecimal(mot3) + Close)))));
    }
    var f := text + LineEnd;
    assert f[..|f| - 1] == text;
    assert f[..|Open|] == Open;
    f
  }

  /** Strips the literal `lit` from the front of `s`. */
  function Expect(lit: string, s: string): (r: Option<string>)
    ensures r.Some? <==> |lit| <= |s| && s[..|lit|] == lit
    ensures r.Some? ==> lit + r.value == s
  {
    if |lit| <= |s| && s[..|lit|] == lit then Some(s[|lit|..]) else None
  }

  /** Recovers the three values from a frame; anything that is not a frame decodes to `None`. */
  function DecodeFrame(f: string): Option<(int, int, int)> {
    match Expect(Open, f)
    case None => None
    case Some(s) => DecodeMotors(s)
  }

  /** `<a>,"mot2":<b>,"mot3":<c>}` and the line feed. */
  function DecodeMotors(s: string): Option<(int, int, int)> {
    match ReadInt(s)
    case None => None
    case Some((a, rest)) =>
      match Expect(Key2, rest)
      case None => None
      case Some(s') =>
        match DecodeLastTwo(s')
        case None => None
        case Some((b, c)) => Some((a, b, c))
  }

  /** `<b>,"mot3":<c>}` and the line feed. */
  function DecodeLastTwo(s: string): Option<(int, int)> {
    match ReadInt(s)
    case None => None
    case Some((b, rest)) =>
      match Expect(Key3, rest)
      case None => None
      case Some(s') =>
        match DecodeLast(s')
        case None => None
        case Some(c) => Some((b, c))
  }

  /** `<c>}` and the line feed, with nothing after it. */
  function DecodeLast(s: string): Option<int> {
    match ReadInt(s)
    case None => None
    case Some((c, rest)) => if rest == Close + LineEnd then Some(c) else None
  }

  /** The frame, re-associated to the right so that the decoder's steps line up. */
  lemma FrameShape(mot1: int, mot2: int, mot3: int)
    ensures Frame(mot1, mot2, mot3)
         == Open + (IntToDecimal(mot1) + (Key2 + (IntToDecimal(mot2) + (Key3 + (IntToDecimal(mot3) + (Close + LineEnd))))))
  {
  }

  lemma ExpectLiteral(lit: string, rest: string)
    ensures Expect(lit, lit + rest) == Some(rest)
  {
    assert (lit + rest)[..|lit|] == lit;
  }

  lemma DecodeLastRoundTrip(mot3: int)
    ensures DecodeLast(IntToDecimal(mot3) + (Close + LineEnd)) == Some(mot3)
  {
    ReadIntRoundTrip(mot3, Close + LineEnd);
  }

  lemma DecodeLastTwoRoundTrip(mot2: int, mot3: int)
    ensures DecodeLastTwo(IntToDecimal(mot2) + (Key3 + (IntToDecimal(mot3) + (Close + LineEnd))))
         == Some((mot2, mot3))
  {
    var last := IntToDecimal(mot3) + (Close + LineEnd);
    ReadIntRoundTrip(mot2, Key3 + last);
    ExpectLiteral(Key3, last);
    DecodeLastRoundTrip(mot3);
  }

  lemma DecodeMotorsRoundTrip(mot1: int, mot2: int, mot3: int)
    ensures DecodeMotors(IntToDecimal(mot1) + (Key2 + (IntToDecimal(mot2) + (Key3 + (IntToDecimal(mot3) + (Close + LineEnd))))))
         == Some((mot1, mot2, mot3))
  {
    var lastTwo := IntToDecimal(mot2) + (Key3 + (IntToDecimal(mot3) + (Close + LineEnd)));
    ReadIntRoundTrip(mot1, Key2 + lastTwo);
    ExpectLiteral(Key2, lastTwo);
    DecodeLastTwoRoundTrip(mot2, mot3);
  }

  /** Decoding a frame yields exactly the three values it was built from, in motor order. */
  lemma {:induction false} FrameRoundTrip(mot1: int, mot2: int, mot3: int)
    ensures DecodeFrame(Frame(mot1, mot2, mot3)) == Some((mot1, mot2, mot3))
  {
    var motors := IntToDecimal(mot1) + (Key2 + (IntToDecimal(mot2) + (Key3 + (IntToDecimal(mot3) + (Close + LineEnd)))));
    FrameShape(mot1, mot2, mot3);
    ExpectLiteral(Open, motors);
    DecodeMotorsRoundTrip(mot1, mot2, mot3);
  }

  /** Different motor values always give different frames. */
  lemma FrameInjective(a1: int, b1: int, c1: int, a2: int, b2: int, c2: int)
    requires Frame(a1, b1, c1) == Frame(a2, b2, c2)
    ensures a1 == a2 && b1 == b2 && c1 == c2
  {
    FrameRoundTrip(a1, b1, c1);
    FrameRoundTrip(a2, b2, c2);
  }
}
