// base64url without padding (app/core/auth.py): the alphabet of section 5 of RFC 4648, with the
// standard library's lenient decoding.
module Base64 {
  import opened Prelude

  type Byte = x: int | 0 <= x < 256
  type Sextet = x: int | 0 <= x < 64

  datatype DecodeError = NotAscii | OneCharacterTooMany | IncorrectPadding

  function Letter(x: Sextet): char
  {
    if x < 26 then ('A' as int + x) as char
    else if x < 52 then ('a' as int + x - 26) as char
    else if x < 62 then ('0' as int + x - 52) as char
    else if x == 62 then '-' else '_'
  }

  // The decoder reads the alphabets of sections 4 and 5 alike.
  function Value(c: char): Option<Sextet>
  {
    if 'A' <= c <= 'Z' then Some(c as int - 'A' as int)
    else if 'a' <= c <= 'z' then Some(c as int - 'a' as int + 26)
    else if '0' <= c <= '9' then Some(c as int - '0' as int + 52)
    else if c == '-' || c == '+' then Some(62)
    else if c == '_' || c == '/' then Some(63)
    else None
  }

  lemma LetterHasItsValue(x: Sextet)
    ensures Value(Letter(x)) == Some(x)
    ensures Letter(x) != '=' && Letter(x) != '.' && Letter(x) < 128 as char
  {
  }

  // urlsafe_b64encode: four letters for three bytes, the last group padded with '='.
  function EncodePadded(b: seq<Byte>): string
  {
    if |b| == 0 then ""
    else if |b| == 1 then [Letter(b[0] / 4), Letter(b[0] % 4 * 16), '=', '=']
    else if |b| == 2 then [Letter(b[0] / 4), Letter(b[0] % 4 * 16 + b[1] / 16), Letter(b[1] % 16 * 4), '=']
    else Group(b[0], b[1], b[2]) + EncodePadded(b[3..])
  }

  function Group(x: Byte, y: Byte, z: Byte): string
  {
    [Letter(x / 4), Letter(x % 4 * 16 + y / 16), Letter(y % 16 * 4 + z / 64), Letter(z % 64)]
  }

  // bytes.rstrip(b"=")
  function StripPadding(s: string): string
  {
    if s != "" && s[|s|-1] == '=' then StripPadding(s[..|s|-1]) else s
  }

  function Encode(b: seq<Byte>): string
  {
    StripPadding(EncodePadded(b))
  }

  function Padding(n: int): string
  {
    seq((-n) % 4, _ => '=')
  }

  // After quad letters of a group, left holds the bits read but not yet written.
  predicate Carries(quad: nat, left: nat)
  {
    quad < 4 && (quad == 0 ==> left == 0) && (quad == 1 ==> left < 64) && (quad == 2 ==> left < 16)
    && (quad == 3 ==> left < 4)
  }

  // binascii.a2b_base64 as b64decode calls it: characters outside the alphabet are skipped, a complete
  // run of padding ends the input.
  function Scan(s: string, quad: nat, pads: nat, left: nat): Result<seq<Byte>, DecodeError>
    requires Carries(quad, left)
  {
    if s == "" then
      if quad == 0 then Ok([]) else if quad == 1 then Err(OneCharacterTooMany) else Err(IncorrectPadding)
    else if s[0] == '=' then
      if quad >= 2 && quad + pads + 1 >= 4 then Ok([])
      else Scan(s[1..], quad, if quad >= 2 then pads + 1 else pads, left)
    else
      match Value(s[0])
      case None => Scan(s[1..], quad, pads, left)
      case Some(x) =>
        if quad == 0 then Scan(s[1..], 1, 0, x)
        else if quad == 1 then Emit(left * 4 + x / 16, Scan(s[1..], 2, 0, x % 16))
        else if quad == 2 then Emit(left * 16 + x / 4, Scan(s[1..], 3, 0, x % 4))
        else Emit(left * 64 + x, Scan(s[1..], 0, 0, 0))
  }

  function Emit(b: Byte, rest: Result<seq<Byte>, DecodeError>): Result<seq<Byte>, DecodeError>
  {
    match rest
    case Ok(bs) => Ok([b] + bs)
    case Err(e) => Err(e)
  }

  predicate IsAscii(s: string)
  {
    forall i :: 0 <= i < |s| ==> s[i] < 128 as char
  }

  function Decode(s: string): Result<seq<Byte>, DecodeError>
  {
    if !IsAscii(s) then Err(NotAscii) else Scan(s + Padding(|s|), 0, 0, 0)
  }

  // ----- The alphabet -----

  // Table 2 in section 5 of RFC 4648.
  const UPPER := "ABCDEFGHIJKLMNOPQRSTUVWXYZ"
  const LOWER := "abcdefghijklmnopqrstuvwxyz"
  const DIGITS := "0123456789"
  const ALPHABET := UPPER + LOWER + DIGITS + "-_"

  lemma LettersInOrder()
    ensures |UPPER| == 26 && forall i :: 0 <= i < 26 ==> UPPER[i] as int == 'A' as int + i
    ensures |LOWER| == 26 && forall i :: 0 <= i < 26 ==> LOWER[i] as int == 'a' as int + i
    ensures |DIGITS| == 10 && forall i :: 0 <= i < 10 ==> DIGITS[i] as int == '0' as int + i
  {
  }

  lemma AlphabetInOrder()
    ensures |ALPHABET| == 64 && ALPHABET[62] == '-' && ALPHABET[63] == '_'
    ensures forall i :: 0 <= i < 26 ==> ALPHABET[i] as int == 'A' as int + i
    ensures forall i :: 26 <= i < 52 ==> ALPHABET[i] as int == 'a' as int + i - 26
    ensures forall i :: 52 <= i < 62 ==> ALPHABET[i] as int == '0' as int + i - 52
  {
    LettersInOrder();
    PiecesInOrder(UPPER, LOWER, DIGITS, "-_");
  }

  lemma PiecesInOrder(a: string, b: string, c: string, d: string)
    requires |a| == 26 && |b| == 26 && |c| == 10 && |d| == 2
    ensures var s := a + b + c + d;
            && |s| == 64 && s[62] == d[0] && s[63] == d[1]
            && (forall i :: 0 <= i < 26 ==> s[i] == a[i])
            && (forall i :: 26 <= i < 52 ==> s[i] == b[i-26])
            && (forall i :: 52 <= i < 62 ==> s[i] == c[i-52])
  {
  }

  lemma ValuesOfAlphabet(x: Sextet, c: char)
    ensures |ALPHABET| == 64 && Value(ALPHABET[x]) == Some(x)
    ensures Value(c) == Some(x) ==> c == ALPHABET[x] || (c == '+' && x == 62) || (c == '/' && x == 63)
  {
    AlphabetInOrder();
  }

  // The letters are these 64 in order; the decoder reads them back, takes + and / for the last two, and no other
  // character for any.
  lemma LettersAreTheAlphabet(x: Sextet, c: char)
    ensures |ALPHABET| == 64 && Letter(x) == ALPHABET[x]
    ensures Value(c) == Some(x) <==> c == ALPHABET[x] || (c == '+' && x == 62) || (c == '/' && x == 63)
    ensures Value(c).None? <==> c !in ALPHABET && c != '+' && c != '/'
  {
    AlphabetInOrder();
    ValuesOfAlphabet(x, c);
    if Value(c).Some? && c != '+' && c != '/' { assert ALPHABET[Value(c).value] == c; }
  }

  // The number a text of letters stands for, six bits a letter, the first letter first.
  ghost function Number(s: string): int
    requires forall i :: 0 <= i < |s| ==> Value(s[i]).Some?
  {
    if s == "" then 0 else 64 * Number(s[..|s|-1]) + Value(s[|s|-1]).value
  }

  lemma NumberOfFour(a: Sextet, b: Sextet, c: Sextet, d: Sextet)
    ensures |[Letter(a), Letter(b)]| == 2 && Number([Letter(a), Letter(b)]) == 64 * a + b
    ensures Number([Letter(a), Letter(b), Letter(c)]) == 64 * (64 * a + b) + c
    ensures Number([Letter(a), Letter(b), Letter(c), Letter(d)]) == 64 * (64 * (64 * a + b) + c) + d
  {
    var one, two, three, four := [Letter(a)], [Letter(a), Letter(b)], [Letter(a), Letter(b), Letter(c)],
        [Letter(a), Letter(b), Letter(c), Letter(d)];
    LetterHasItsValue(a);
    LetterHasItsValue(b);
    LetterHasItsValue(c);
    LetterHasItsValue(d);
    assert four[..3] == three && three[..2] == two && two[..1] == one && one[..0] == "";
    assert Number(one) == a;
  }

  // Three bytes become four letters that stand for the same 24 bits, high bits first; two bytes become three letters
  // with two zero bits added, and one byte two letters with four.
  lemma GroupsKeepBits(x: Byte, y: Byte, z: Byte, rest: seq<Byte>)
    ensures Encode([x, y, z] + rest) == Group(x, y, z) + Encode(rest)
    ensures |Group(x, y, z)| == 4 && AllLetters(Group(x, y, z)) && Number(Group(x, y, z)) == 65536 * x + 256 * y + z
    ensures |Encode([x, y])| == 3 && AllLetters(Encode([x, y])) && Number(Encode([x, y])) == 4 * (256 * x + y)
    ensures |Encode([x])| == 2 && AllLetters(Encode([x])) && Number(Encode([x])) == 16 * x
  {
    PaddedSplits([x, y, z] + rest);
    PaddedSplits(rest);
    PaddedSplits([x, y]);
    PaddedSplits([x]);
    GroupLetters(x, y, z);
    assert ([x, y, z] + rest)[3..] == rest;
    NumberOfFour(x / 4, x % 4 * 16 + y / 16, y % 16 * 4 + z / 64, z % 64);
    NumberOfFour(x / 4, x % 4 * 16 + y / 16, y % 16 * 4, 0);
    NumberOfFour(x / 4, x % 4 * 16, 0, 0);
    assert Letters([x, y]) == [Letter(x / 4), Letter(x % 4 * 16 + y / 16), Letter(y % 16 * 4)];
    assert Letters([x]) == [Letter(x / 4), Letter(x % 4 * 16)];
  }

  // ----- Round trip -----

  predicate IsLetter(c: char) { Value(c).Some? }

  ghost predicate AllLetters(s: string)
  {
    forall i :: 0 <= i < |s| ==> IsLetter(s[i]) && s[i] < 128 as char
  }

  lemma {:induction false} StripPads(s: string, n: nat)
    requires s == "" || s[|s|-1] != '='
    ensures StripPadding(s + seq(n, _ => '=')) == s
  {
    var t := s + seq(n, _ => '=');
    if n == 0 {
      assert t == s;
    } else {
      assert t[..|t|-1] == s + seq(n - 1, _ => '=');
      StripPads(s, n - 1);
    }
  }

  // The letters of the encoding, group by group.
  function Letters(b: seq<Byte>): string
  {
    if |b| == 0 then ""
    else if |b| == 1 then [Letter(b[0] / 4), Letter(b[0] % 4 * 16)]
    else if |b| == 2 then [Letter(b[0] / 4), Letter(b[0] % 4 * 16 + b[1] / 16), Letter(b[1] % 16 * 4)]
    else Group(b[0], b[1], b[2]) + Letters(b[3..])
  }

  lemma {:induction false} LettersAreLetters(b: seq<Byte>)
    ensures AllLetters(Letters(b))
    ensures b == [] <==> Letters(b) == ""
  {
    if |b| == 1 {
      LetterHasItsValue(b[0] / 4);
      LetterHasItsValue(b[0] % 4 * 16);
    } else if |b| == 2 {
      LetterHasItsValue(b[0] / 4);
      LetterHasItsValue(b[0] % 4 * 16 + b[1] / 16);
      LetterHasItsValue(b[1] % 16 * 4);
    } else if |b| >= 3 {
      GroupLetters(b[0], b[1], b[2]);
      LettersAreLetters(b[3..]);
    }
  }

  lemma PaddingRepeats(n: nat)
    ensures Padding(4 + n) == Padding(n)
  {
    assert (-(4 + n as int)) % 4 == (-(n as int)) % 4;
  }

  lemma {:induction false} PaddedIsLettersAndPadding(b: seq<Byte>)
    ensures EncodePadded(b) == Letters(b) + Padding(|Letters(b)|)
  {
    if |b| == 1 {
      assert Padding(2) == ['=', '='];
    } else if |b| == 2 {
      assert Padding(3) == ['='];
    } else if |b| >= 3 {
      PaddedIsLettersAndPadding(b[3..]);
      PaddingRepeats(|Letters(b[3..])|);
    }
  }

  // The padded text is the stripped one and exactly the padding its length calls for.
  lemma PaddedSplits(b: seq<Byte>)
    ensures Encode(b) == Letters(b) && AllLetters(Encode(b))
    ensures EncodePadded(b) == Encode(b) + Padding(|Encode(b)|)
    ensures b == [] <==> Encode(b) == ""
  {
    PaddedIsLettersAndPadding(b);
    LettersAreLetters(b);
    StripPads(Letters(b), (-|Letters(b)|) % 4);
  }

  lemma GroupLetters(x: Byte, y: Byte, z: Byte)
    ensures |Group(x, y, z)| == 4 && AllLetters(Group(x, y, z)) && Group(x, y, z)[3] != '='
  {
    LetterHasItsValue(x / 4);
    LetterHasItsValue(x % 4 * 16 + y / 16);
    LetterHasItsValue(y % 16 * 4 + z / 64);
    LetterHasItsValue(z % 64);
  }

  // One letter read.
  lemma ScanLetter(x: Sextet, rest: string, quad: nat, pads: nat, left: nat)
    requires Carries(quad, left)
    ensures Scan([Letter(x)] + rest, quad, pads, left)
              == if quad == 0 then Scan(rest, 1, 0, x)
                 else if quad == 1 then Emit(left * 4 + x / 16, Scan(rest, 2, 0, x % 16))
                 else if quad == 2 then Emit(left * 16 + x / 4, Scan(rest, 3, 0, x % 4))
                 else Emit(left * 64 + x, Scan(rest, 0, 0, 0))
  {
    LetterHasItsValue(x);
    assert ([Letter(x)] + rest)[1..] == rest;
  }

  // The bytes come back out of the sextets.
  lemma Sextets(x: Byte, y: Byte, z: Byte)
    ensures x / 4 * 4 + (x % 4 * 16 + y / 16) / 16 == x
    ensures (x % 4 * 16 + y / 16) % 16 * 16 + (y % 16 * 4 + z / 64) / 4 == y
    ensures (y % 16 * 4 + z / 64) % 4 * 64 + z % 64 == z
  {
  }

  lemma ScanTwo(a: Sextet, b: Sextet, rest: string)
    ensures Scan([Letter(a)] + ([Letter(b)] + rest), 0, 0, 0) == Emit(a * 4 + b / 16, Scan(rest, 2, 0, b % 16))
  {
    ScanLetter(b, rest, 1, 0, a);
    ScanLetter(a, [Letter(b)] + rest, 0, 0, 0);
  }

  lemma ScanThree(a: Sextet, b: Sextet, c: Sextet, rest: string)
    ensures Scan([Letter(a)] + ([Letter(b)] + ([Letter(c)] + rest)), 0, 0, 0)
              == Emit(a * 4 + b / 16, Emit(b % 16 * 16 + c / 4, Scan(rest, 3, 0, c % 4)))
  {
    ScanLetter(c, rest, 2, 0, b % 16);
    ScanTwo(a, b, [Letter(c)] + rest);
  }

  lemma ScanFour(a: Sextet, b: Sextet, c: Sextet, d: Sextet, rest: string)
    ensures Scan([Letter(a), Letter(b), Letter(c), Letter(d)] + rest, 0, 0, 0)
              == Emit(a * 4 + b / 16, Emit(b % 16 * 16 + c / 4, Emit(c % 4 * 64 + d, Scan(rest, 0, 0, 0))))
  {
    ScanLetter(d, rest, 3, 0, c % 4);
    ScanThree(a, b, c, [Letter(d)] + rest);
    assert [Letter(a), Letter(b), Letter(c), Letter(d)] + rest
        == [Letter(a)] + ([Letter(b)] + ([Letter(c)] + ([Letter(d)] + rest)));
  }

  lemma ScanGroup(x: Byte, y: Byte, z: Byte, rest: string)
    ensures Scan(Group(x, y, z) + rest, 0, 0, 0) == Emit(x, Emit(y, Emit(z, Scan(rest, 0, 0, 0))))
  {
    Sextets(x, y, z);
    ScanFour(x / 4, x % 4 * 16 + y / 16, y % 16 * 4 + z / 64, z % 64, rest);
  }

  lemma ScanOneByte(x: Byte)
    ensures Scan(EncodePadded([x]), 0, 0, 0) == Ok([x])
  {
    Sextets(x, 0, 0);
    ScanTwo(x / 4, x % 4 * 16, "==");
    assert EncodePadded([x]) == [Letter(x / 4)] + ([Letter(x % 4 * 16)] + "==");
    assert "=="[1..] == "=";
    assert Scan("=", 2, 1, 0) == Ok([]);
    assert [x] + [] == [x];
  }

  lemma ScanTwoBytes(x: Byte, y: Byte)
    ensures Scan(EncodePadded([x, y]), 0, 0, 0) == Ok([x, y])
  {
    Sextets(x, y, 0);
    ScanThree(x / 4, x % 4 * 16 + y / 16, y % 16 * 4, "=");
    assert EncodePadded([x, y])
        == [Letter(x / 4)] + ([Letter(x % 4 * 16 + y / 16)] + ([Letter(y % 16 * 4)] + "="));
    assert Scan("=", 3, 0, 0) == Ok([]);
    assert [x] + ([y] + []) == [x, y];
  }

  lemma {:induction false} ScanUndoesEncode(b: seq<Byte>)
    ensures Scan(EncodePadded(b), 0, 0, 0) == Ok(b)
  {
    if |b| == 1 {
      ScanOneByte(b[0]);
      assert b == [b[0]];
    } else if |b| == 2 {
      ScanTwoBytes(b[0], b[1]);
      assert b == [b[0], b[1]];
    } else if |b| >= 3 {
      ScanUndoesEncode(b[3..]);
      ScanGroup(b[0], b[1], b[2], EncodePadded(b[3..]));
      assert b == [b[0]] + ([b[1]] + ([b[2]] + b[3..]));
    }
  }

  // Decoding undoes encoding for every byte string, so different byte strings print differently.
  lemma DecodeUndoesEncode(b: seq<Byte>)
    ensures Decode(Encode(b)) == Ok(b)
  {
    PaddedSplits(b);
    ScanUndoesEncode(b);
  }

  // ----- Any text -----

  lemma PaddingOfLetters(quad: nat, left: nat)
    requires Carries(quad, left)
    ensures Scan(Padding(quad), quad, 0, left) == if quad == 1 then Err(OneCharacterTooMany) else Ok([])
  {
    if quad == 1 {
      assert Padding(1) == ['=', '=', '='] && ['=', '=', '='][1..] == ['=', '='] && ['=', '='][1..] == ['='];
      assert Scan(['='], 1, 0, left) == Scan("", 1, 0, left);
    } else if quad == 2 {
      assert Padding(2) == ['=', '='] && ['=', '='][1..] == ['='];
      assert Scan(['='], 2, 1, left) == Ok([]);
    } else if quad == 3 {
      assert Padding(3) == ['='];
    }
  }

  lemma {:induction false} ScanOfLetters(s: string, pad: string, quad: nat, left: nat)
    requires Carries(quad, left)
    requires (forall i :: 0 <= i < |s| ==> IsLetter(s[i])) && pad == Padding(quad + |s|)
    ensures var r := Scan(s + pad, quad, 0, left);
            && (r == Err(OneCharacterTooMany) <==> (quad + |s|) % 4 == 1)
            && (r.Ok? <==> (quad + |s|) % 4 != 1)
            && (r.Ok? ==> |r.value| == (quad + |s|) * 3 / 4 - quad * 3 / 4)
  {
    if s == "" {
      assert s + pad == pad;
      PaddingOfLetters(quad, left);
    } else {
      var x := Value(s[0]).value;
      assert s[0] != '=';
      assert (s + pad)[1..] == s[1..] + pad;
      if quad == 0 {
        ScanOfLetters(s[1..], pad, 1, x);
      } else if quad == 1 {
        ScanOfLetters(s[1..], pad, 2, x % 16);
      } else if quad == 2 {
        ScanOfLetters(s[1..], pad, 3, x % 4);
      } else {
        PaddingRepeats(|s| - 1);
        ScanOfLetters(s[1..], pad, 0, 0);
      }
    }
  }

  // Letters decode unless there is one too many for whole bytes, whatever the spare bits of the last letter.
  lemma LettersDecode(s: string)
    requires AllLetters(s)
    ensures Decode(s) == Err(OneCharacterTooMany) <==> |s| % 4 == 1
    ensures Decode(s).Ok? <==> |s| % 4 != 1
    ensures Decode(s).Ok? ==> |Decode(s).value| == |s| * 3 / 4
  {
    ScanOfLetters(s, Padding(|s|), 0, 0);
  }

  // Characters that are neither letters nor padding are passed over.
  lemma {:induction false} OthersAreSkipped(a: string, c: char, b: string, quad: nat, pads: nat, left: nat)
    requires Carries(quad, left)
    requires !IsLetter(c) && c != '='
    ensures Scan(a + [c] + b, quad, pads, left) == Scan(a + b, quad, pads, left)
  {
    if a == "" {
      assert a + [c] + b == [c] + b && a + b == b;
    } else {
      assert (a + [c] + b)[1..] == a[1..] + [c] + b && (a + b)[1..] == a[1..] + b;
      var rest := a[1..];
      if a[0] == '=' {
        if !(quad >= 2 && quad + pads + 1 >= 4) {
          OthersAreSkipped(rest, c, b, quad, if quad >= 2 then pads + 1 else pads, left);
        }
      } else if Value(a[0]).None? {
        OthersAreSkipped(rest, c, b, quad, pads, left);
      } else {
        var x := Value(a[0]).value;
        OthersAreSkipped(rest, c, b, (quad + 1) % 4, 0,
                         if quad == 0 then x else if quad == 1 then x % 16 else if quad == 2 then x % 4 else 0);
      }
    }
  }

  lemma {:induction false} ScanIsNotAboutAscii(s: string, quad: nat, pads: nat, left: nat)
    requires Carries(quad, left)
    ensures Scan(s, quad, pads, left) != Err(NotAscii)
  {
    if s != "" {
      if s[0] == '=' {
        ScanIsNotAboutAscii(s[1..], quad, if quad >= 2 then pads + 1 else pads, left);
      } else if Value(s[0]).None? {
        ScanIsNotAboutAscii(s[1..], quad, pads, left);
      } else {
        var x := Value(s[0]).value;
        ScanIsNotAboutAscii(s[1..], (quad + 1) % 4, 0,
                            if quad == 0 then x else if quad == 1 then x % 16 else if quad == 2 then x % 4 else 0);
      }
    }
  }

  // A text is rejected as not ASCII exactly if it has a character of 128 or more.
  lemma NotAsciiIff(s: string)
    ensures Decode(s) == Err(NotAscii) <==> exists i :: 0 <= i < |s| && s[i] as int >= 128
  {
    ScanIsNotAboutAscii(s + Padding(|s|), 0, 0, 0);
  }
}
