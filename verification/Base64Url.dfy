/** The unpadded base64url form of section 5 of RFC 4648, as the sign-in client builds it. */
module Base64Url {
  import opened Wrappers

  type Byte = x: int | 0 <= x < 256

  const UPPER := "ABCDEFGHIJKLMNOPQRSTUVWXYZ"
  const LOWER := "abcdefghijklmnopqrstuvwxyz"
  const DIGITS := "0123456789"
  const ALPHABET := UPPER + LOWER + DIGITS + "-_"

  function Letter(six: nat): char
    requires six < 64
  {
    ALPHABET[six]
  }

  /** The six bits of a 24-bit group that start at a weight: a right shift and a mask. */
  function Sextet(value: nat, weight: nat): (six: nat)
    requires weight > 0
    ensures six < 64
  {
    value / weight % 64
  }

  function Group(first: Byte, second: Byte, third: Byte): nat {
    first * 0x10000 + second * 0x100 + third
  }

  /** The sextets of the next one to three bytes; a missing byte counts as zero and gets no sextet of its own. */
  function GroupValues(bytes: seq<Byte>): (values: seq<nat>)
    requires 1 <= |bytes| <= 3
    ensures |values| == |bytes| + 1 && forall i :: 0 <= i < |values| ==> values[i] < 64
  {
    var v := Group(bytes[0], if |bytes| > 1 then bytes[1] else 0, if |bytes| > 2 then bytes[2] else 0);
    if |bytes| == 1 then [Sextet(v, 0x40000), Sextet(v, 0x1000)]
    else if |bytes| == 2 then [Sextet(v, 0x40000), Sextet(v, 0x1000), Sextet(v, 0x40)]
    else [Sextet(v, 0x40000), Sextet(v, 0x1000), Sextet(v, 0x40), Sextet(v, 1)]
  }

  function Spell(values: seq<nat>): (s: string)
    requires forall i :: 0 <= i < |values| ==> values[i] < 64
    ensures |s| == |values| && forall i :: 0 <= i < |s| ==> s[i] == Letter(values[i])
  {
    seq(|values|, i requires 0 <= i < |values| => Letter(values[i]))
  }

  function Encode(bytes: seq<Byte>): string {
    if bytes == [] then ""
    else if |bytes| <= 3 then Spell(GroupValues(bytes))
    else Spell(GroupValues(bytes[..3])) + Encode(bytes[3..])
  }

  lemma {:induction false} EncodeAppends(prefix: seq<Byte>, bytes: seq<Byte>)
    requires |prefix| % 3 == 0
    ensures Encode(prefix + bytes) == Encode(prefix) + Encode(bytes)
  {
    hide GroupValues, Spell;
    if prefix == [] {
      assert prefix + bytes == bytes;
    } else if |prefix| == 3 {
      if bytes == [] {
        assert prefix + bytes == prefix;
      } else {
        assert (prefix + bytes)[..3] == prefix && (prefix + bytes)[3..] == bytes && prefix[..3] == prefix;
      }
    } else {
      EncodeAppends(prefix[3..], bytes);
      assert (prefix + bytes)[..3] == prefix[..3] && (prefix + bytes)[3..] == prefix[3..] + bytes;
      var group := Spell(GroupValues(prefix[..3]));
      assert group + (Encode(prefix[3..]) + Encode(bytes)) == (group + Encode(prefix[3..])) + Encode(bytes);
    }
  }

  /** The next three bytes, or what is left. */
  function Next(bytes: seq<Byte>, index: nat): (next: seq<Byte>)
    requires index < |bytes|
    ensures 1 <= |next| <= 3
  {
    bytes[index..if index + 3 <= |bytes| then index + 3 else |bytes|]
  }

  lemma EncodeGrows(bytes: seq<Byte>, index: nat)
    requires index < |bytes| && index % 3 == 0
    ensures Encode(bytes[..index]) + Spell(GroupValues(Next(bytes, index)))
            == Encode(bytes[..if index + 3 <= |bytes| then index + 3 else |bytes|])
  {
    hide GroupValues, Spell;
    EncodeAppends(bytes[..index], Next(bytes, index));
    assert bytes[..index] + Next(bytes, index) == bytes[..index + |Next(bytes, index)|];
  }

  lemma SpellLetterByLetter(before: string, values: seq<nat>)
    requires 2 <= |values| <= 4 && forall i :: 0 <= i < |values| ==> values[i] < 64
    ensures var two := before + [Letter(values[0])] + [Letter(values[1])];
            && (|values| == 2 ==> two == before + Spell(values))
            && (|values| == 3 ==> two + [Letter(values[2])] == before + Spell(values))
            && (|values| == 4 ==> two + [Letter(values[2])] + [Letter(values[3])] == before + Spell(values))
  {
    hide Letter;
    var two := before + [Letter(values[0])] + [Letter(values[1])];
    assert |values| == 2 ==> Spell(values) == [Letter(values[0]), Letter(values[1])];
    assert |values| == 3 ==> Spell(values) == [Letter(values[0]), Letter(values[1]), Letter(values[2])];
    assert |values| == 4 ==> Spell(values) == [Letter(values[0]), Letter(values[1]), Letter(values[2]), Letter(values[3])];
  }

  /** The bytes of one turn: the second and the third may be missing. */
  function Present(first: Byte, second: Option<Byte>, third: Option<Byte>): (bytes: seq<Byte>)
    requires third.Some? ==> second.Some?
    ensures 1 <= |bytes| <= 3
  {
    [first] + (if second.Some? then [second.value] else []) + (if third.Some? then [third.value] else [])
  }

  method AppendGroup(output: string, first: Byte, second: Option<Byte>, third: Option<Byte>) returns (longer: string)
    requires third.Some? ==> second.Some?
    ensures longer == output + Spell(GroupValues(Present(first, second, third)))
  {
    var value := Group(first, if second.Some? then second.value else 0, if third.Some? then third.value else 0);
    ghost var values := GroupValues(Present(first, second, third));
    assert values[0] == Sextet(value, 0x40000) && values[1] == Sextet(value, 0x1000);
    assert second.Some? ==> values[2] == Sextet(value, 0x40);
    assert third.Some? ==> values[3] == Sextet(value, 1);
    hide *;
    SpellLetterByLetter(output, values);
    longer := output + [Letter(Sextet(value, 0x40000))];
    longer := longer + [Letter(Sextet(value, 0x1000))];
    if second.Some? {
      longer := longer + [Letter(Sextet(value, 0x40))];
    }
    if third.Some? {
      longer := longer + [Letter(Sextet(value, 1))];
    }
  }

  /** The byte at an index, which may lie past the end. */
  function ByteAt(bytes: seq<Byte>, index: nat): Option<Byte> {
    if index < |bytes| then Some(bytes[index]) else None
  }

  /** What has been encoded when the next turn starts at an index. */
  function EncodedBefore(bytes: seq<Byte>, index: nat): string {
    Encode(if index <= |bytes| then bytes[..index] else bytes)
  }

  lemma TurnGrows(bytes: seq<Byte>, index: nat)
    requires index < |bytes| && index % 3 == 0
    ensures EncodedBefore(bytes, index + 3)
            == EncodedBefore(bytes, index)
               + Spell(GroupValues(Present(bytes[index], ByteAt(bytes, index + 1), ByteAt(bytes, index + 2))))
  {
    hide Encode, Spell, GroupValues;
    EncodeGrows(bytes, index);
    assert Present(bytes[index], ByteAt(bytes, index + 1), ByteAt(bytes, index + 2)) == Next(bytes, index);
    assert bytes[..|bytes|] == bytes;
  }

  lemma EncodedAtTheEnds(bytes: seq<Byte>)
    ensures EncodedBefore(bytes, 0) == ""
    ensures forall index: nat :: index >= |bytes| ==> EncodedBefore(bytes, index) == Encode(bytes)
  {
    assert bytes[..0] == [] && bytes[..|bytes|] == bytes;
    assert Encode([]) == "";
    hide Encode;
  }

  method ToBase64Url(bytes: seq<Byte>) returns (output: string)
    ensures output == Encode(bytes)
  {
    hide Encode, EncodedBefore, Spell, GroupValues, Present;
    EncodedAtTheEnds(bytes);
    output := "";
    var index := 0;
    while index < |bytes|
      invariant 0 <= index && index % 3 == 0
      invariant output == EncodedBefore(bytes, index)
      decreases |bytes| - index
    {
      TurnGrows(bytes, index);
      var first := bytes[index];
      var second := ByteAt(bytes, index + 1);
      var third := ByteAt(bytes, index + 2);
      output := AppendGroup(output, first, second, third);
      index := index + 3;
    }
  }

  // ----- a decoder recovers the bytes

  function LetterValue(c: char): Option<nat> {
    if 'A' <= c <= 'Z' then Some((c - 'A') as nat)
    else if 'a' <= c <= 'z' then Some((c - 'a') as nat + 26)
    else if '0' <= c <= '9' then Some((c - '0') as nat + 52)
    else if c == '-' then Some(62)
    else if c == '_' then Some(63)
    else None
  }

  lemma LettersInOrder(i: nat)
    ensures i < 26 ==> UPPER[i] == 'A' + i as char && LOWER[i] == 'a' + i as char
    ensures i < 10 ==> DIGITS[i] == '0' + i as char
  {
  }

  lemma LettersHaveTheirValues(i: nat)
    requires i < 64
    ensures LetterValue(Letter(i)) == Some(i)
  {
    if i < 26 {
      LettersInOrder(i);
      assert ALPHABET[i] == UPPER[i];
    } else if i < 52 {
      LettersInOrder(i - 26);
      assert ALPHABET[i] == LOWER[i - 26];
    } else if i < 62 {
      LettersInOrder(i - 52);
      assert ALPHABET[i] == DIGITS[i - 52];
    } else {
      assert ALPHABET[i] == "-_"[i - 62];
    }
  }

  function Values(s: string): Option<seq<nat>> {
    if s == "" then Some([])
    else
      var head, tail := LetterValue(s[0]), Values(s[1..]);
      if head.None? || tail.None? then None else Some([head.value] + tail.value)
  }

  function ByteOf(x: nat): Byte { x % 256 }

  /** The bytes of the next two to four sextets. */
  function DecodeGroup(values: seq<nat>): (bytes: seq<Byte>)
    requires 2 <= |values| <= 4
    ensures |bytes| == |values| - 1
  {
    var first := ByteOf(values[0] * 4 + values[1] / 16);
    if |values| == 2 then [first]
    else
      var second := ByteOf(values[1] % 16 * 16 + values[2] / 4);
      if |values| == 3 then [first, second] else [first, second, ByteOf(values[2] % 4 * 64 + values[3])]
  }

  function DecodeValues(values: seq<nat>): Option<seq<Byte>> {
    if values == [] then Some([])
    else if |values| == 1 then None
    else if |values| <= 4 then Some(DecodeGroup(values))
    else
      var rest := DecodeValues(values[4..]);
      if rest.None? then None else Some(DecodeGroup(values[..4]) + rest.value)
  }

  function Decode(s: string): Option<seq<Byte>> {
    var values := Values(s);
    if values.None? then None else DecodeValues(values.value)
  }

  lemma SixBits(head: nat, six: nat)
    requires six < 64
    ensures (head * 64 + six) / 64 == head && (head * 64 + six) % 64 == six
  {
  }

  lemma HighSextets(first: Byte, second: Byte, third: Byte)
    ensures var v := Group(first, second, third);
            Sextet(v, 0x40000) == first / 4 && Sextet(v, 0x1000) == first % 4 * 16 + second / 16
  {
    var v: nat, high: nat, low: nat := Group(first, second, third), first % 4, second % 16;
    assert first == first / 4 * 4 + high && second == second / 16 * 16 + low;
    assert v == first / 4 * 0x40000 + (high * 0x10000 + second * 0x100 + third);
    assert v / 0x40000 == first / 4;
    assert v == (first * 16 + second / 16) * 0x1000 + (low * 0x100 + third);
    assert v / 0x1000 == first * 16 + second / 16;
    SixBits(first / 4, high * 16 + second / 16);
    assert first * 16 + second / 16 == first / 4 * 64 + (high * 16 + second / 16);
  }

  lemma LowSextets(first: Byte, second: Byte, third: Byte)
    ensures var v := Group(first, second, third);
            Sextet(v, 0x40) == second % 16 * 4 + third / 64 && Sextet(v, 1) == third % 64
  {
    var v := Group(first, second, third);
    var six: nat := second % 16 * 4 + third / 64;
    SixBits(first * 0x400 + second * 4 + third / 64, third % 64);
    SixBits(first * 16 + second / 16, six);
    assert third == third / 64 * 64 + third % 64 && second == second / 16 * 16 + second % 16;
    assert v == (first * 0x400 + second * 4 + third / 64) * 64 + third % 64;
    assert first * 0x400 + second * 4 + third / 64 == (first * 16 + second / 16) * 64 + six;
  }

  lemma {:induction false} ValuesAppend(s: string, t: string)
    requires Values(s).Some? && Values(t).Some?
    ensures Values(s + t) == Some(Values(s).value + Values(t).value)
  {
    if s == "" {
      assert s + t == t && [] + Values(t).value == Values(t).value;
    } else {
      ValuesAppend(s[1..], t);
      assert (s + t)[1..] == s[1..] + t;
      var head := [LetterValue(s[0]).value];
      assert head + (Values(s[1..]).value + Values(t).value) == (head + Values(s[1..]).value) + Values(t).value;
    }
  }

  lemma {:induction false} SpelledValues(values: seq<nat>)
    requires forall i :: 0 <= i < |values| ==> values[i] < 64
    ensures Values(Spell(values)) == Some(values)
  {
    hide LetterValue, Letter;
    if values != [] {
      LettersHaveTheirValues(values[0]);
      SpelledValues(values[1..]);
      assert Spell(values)[1..] == Spell(values[1..]);
      assert [values[0]] + values[1..] == values;
    }
  }

  function At(bytes: seq<Byte>, i: nat): Byte {
    if i < |bytes| then bytes[i] else 0
  }

  lemma GroupSextets(bytes: seq<Byte>)
    requires 1 <= |bytes| <= 3
    ensures var values := GroupValues(bytes);
            && values[0] == At(bytes, 0) / 4
            && values[1] == At(bytes, 0) % 4 * 16 + At(bytes, 1) / 16
            && (|bytes| > 1 ==> values[2] == At(bytes, 1) % 16 * 4 + At(bytes, 2) / 64)
            && (|bytes| > 2 ==> values[3] == At(bytes, 2) % 64)
  {
    HighSextets(At(bytes, 0), At(bytes, 1), At(bytes, 2));
    LowSextets(At(bytes, 0), At(bytes, 1), At(bytes, 2));
    hide Sextet, Group;
  }

  lemma GroupDecodes(bytes: seq<Byte>)
    requires 1 <= |bytes| <= 3
    ensures DecodeGroup(GroupValues(bytes)) == bytes
  {
    var values, decoded := GroupValues(bytes), DecodeGroup(GroupValues(bytes));
    hide GroupValues, ByteOf;
    GroupSextets(bytes);
    FirstByteReturns(At(bytes, 0), At(bytes, 1));
    SecondByteReturns(At(bytes, 0), At(bytes, 1), At(bytes, 2));
    ThirdByteReturns(At(bytes, 1), At(bytes, 2));
    assert decoded[0] == bytes[0];
    assert |bytes| > 1 ==> decoded[1] == bytes[1];
    assert |bytes| > 2 ==> decoded[2] == bytes[2];
  }

  lemma FirstByteReturns(first: Byte, second: Byte)
    ensures ByteOf(first / 4 * 4 + (first % 4 * 16 + second / 16) / 16) == first
  {
    var tail: nat := second / 16;
    assert (first % 4 * 16 + tail) / 16 == first % 4;
  }

  lemma SecondByteReturns(first: Byte, second: Byte, third: Byte)
    ensures ByteOf((first % 4 * 16 + second / 16) % 16 * 16 + (second % 16 * 4 + third / 64) / 4) == second
  {
    var a: nat, b: nat, c: nat, d: nat := first % 4, second / 16, second % 16, third / 64;
    assert b < 16 && d < 4 && second == b * 16 + c;
    assert (a * 16 + b) % 16 == b;
    assert (c * 4 + d) / 4 == c;
  }

  lemma ThirdByteReturns(second: Byte, third: Byte)
    ensures ByteOf((second % 16 * 4 + third / 64) % 4 * 64 + third % 64) == third
  {
    var c: nat, d: nat := second % 16, third / 64;
    assert d < 4 && third == d * 64 + third % 64;
    assert (c * 4 + d) % 4 == d;
  }

  /** A decoder recovers every byte string, so the form loses nothing. */
  lemma {:induction false} DecodeUndoesEncode(bytes: seq<Byte>)
    ensures Values(Encode(bytes)).Some? && DecodeValues(Values(Encode(bytes)).value) == Some(bytes)
    ensures Decode(Encode(bytes)) == Some(bytes)
  {
    hide DecodeGroup, GroupValues, Spell;
    if bytes != [] {
      var head := if |bytes| <= 3 then bytes else bytes[..3];
      GroupDecodes(head);
      SpelledValues(GroupValues(head));
      if |bytes| > 3 {
        DecodeUndoesEncode(bytes[3..]);
        ValuesAppend(Spell(GroupValues(head)), Encode(bytes[3..]));
        var group, rest := GroupValues(head), Values(Encode(bytes[3..])).value;
        assert (group + rest)[..4] == group && (group + rest)[4..] == rest;
        assert rest != [];
        assert head + bytes[3..] == bytes;
      }
    }
  }

  // ----- a lenient reader

  /** The letters of the URL alphabet, and the two that the ordinary alphabet has in their place. */
  function LenientValue(c: char): Option<nat> {
    if c == '+' then Some(62) else if c == '/' then Some(63) else LetterValue(c)
  }

  /** Takes the letters of either alphabet for what they are, and no other ASCII character for a letter; what it does beyond
      ASCII is open. */
  ghost predicate TakesEitherAlphabet(sextet: char -> Option<nat>) {
    forall c: char :: c < 128 as char ==> sextet(c) == LenientValue(c)
  }

  /** The sextets of the letters up to the first equals sign; other characters are passed over. */
  function Letters(s: string, sextet: char -> Option<nat>): seq<nat> {
    if s == "" || s[0] == '=' then []
    else (if sextet(s[0]).Some? then [sextet(s[0]).value] else []) + Letters(s[1..], sextet)
  }

  /** The whole bytes that the sextets make; a single one left over makes none. */
  function WholeBytes(values: seq<nat>): seq<Byte> {
    if |values| <= 1 then []
    else if |values| <= 4 then DecodeGroup(values)
    else DecodeGroup(values[..4]) + WholeBytes(values[4..])
  }

  function DecodeLeniently(s: string, sextet: char -> Option<nat>): seq<Byte> {
    WholeBytes(Letters(s, sextet))
  }

  lemma {:induction false} LettersOfStrictText(s: string, sextet: char -> Option<nat>)
    requires TakesEitherAlphabet(sextet) && Values(s).Some?
    ensures Letters(s, sextet) == Values(s).value
  {
    if s != "" {
      LettersOfStrictText(s[1..], sextet);
    }
  }

  lemma {:induction false} WholeBytesOfStrictValues(values: seq<nat>)
    requires DecodeValues(values).Some?
    ensures WholeBytes(values) == DecodeValues(values).value
  {
    if |values| > 4 {
      WholeBytesOfStrictValues(values[4..]);
    }
  }

  /** The lenient reader reads what the encoder wrote. */
  lemma LenientReaderUndoesEncode(bytes: seq<Byte>, sextet: char -> Option<nat>)
    requires TakesEitherAlphabet(sextet)
    ensures DecodeLeniently(Encode(bytes), sextet) == bytes
  {
    DecodeUndoesEncode(bytes);
    LettersOfStrictText(Encode(bytes), sextet);
    WholeBytesOfStrictValues(Values(Encode(bytes)).value);
  }

  /** Characters that are neither letters nor equals signs can be put anywhere. */
  lemma {:induction false} OtherCharactersDoNotMatter(before: string, others: string, after: string, sextet: char -> Option<nat>)
    requires forall c <- others :: c != '=' && sextet(c).None?
    ensures Letters(before + others + after, sextet) == Letters(before + after, sextet)
  {
    if before != "" {
      OtherCharactersDoNotMatter(before[1..], others, after, sextet);
      assert (before + others + after)[1..] == before[1..] + others + after && (before + after)[1..] == before[1..] + after;
    } else if others != "" {
      assert others[0] in others && forall c <- others[1..] :: c in others;
      OtherCharactersDoNotMatter("", others[1..], after, sextet);
      assert before + others + after == others + after && "" + others[1..] + after == others[1..] + after;
      assert (others + after)[1..] == others[1..] + after;
    } else {
      assert before + others + after == before + after;
    }
  }

  /** An equals sign ends the text: whatever follows it is never read. */
  lemma {:induction false} NothingIsReadAfterPadding(before: string, after: string, sextet: char -> Option<nat>)
    ensures Letters(before + "=" + after, sextet) == Letters(before, sextet)
  {
    if before == "" {
      assert (before + "=" + after)[0] == '=';
    } else {
      NothingIsReadAfterPadding(before[1..], after, sextet);
      assert (before + "=" + after)[1..] == before[1..] + "=" + after;
    }
  }

  // ----- a text cut short makes fewer bytes

  lemma {:induction false} ValuesOfPrefix(s: string, k: nat)
    requires Values(s).Some? && k <= |s|
    ensures |Values(s).value| == |s| && Values(s[..k]) == Some(Values(s).value[..k])
  {
    hide LetterValue;
    if s == "" {
      assert s[..k] == "";
    } else if k == 0 {
      ValuesOfPrefix(s[1..], 0);
      assert s[..k] == "";
    } else {
      ValuesOfPrefix(s[1..], k - 1);
      assert s[..k][1..] == s[1..][..k - 1];
      assert Values(s).value[..k] == [Values(s).value[0]] + Values(s[1..]).value[..k - 1];
    }
  }

  lemma {:induction false} BytesOfPrefix(values: seq<nat>, k: nat)
    requires k <= |values|
    ensures |WholeBytes(values[..k])| == 3 * k / 4 <= |WholeBytes(values)| == 3 * |values| / 4
    ensures WholeBytes(values[..k]) == WholeBytes(values)[..3 * k / 4]
  {
    hide ByteOf;
    if |values| > 4 {
      BytesOfPrefix(values[4..], if k <= 4 then 0 else k - 4);
      if k > 4 {
        assert values[..k][..4] == values[..4] && values[..k][4..] == values[4..][..k - 4];
      } else {
        assert values[..k] == values[..4][..k];
      }
    }
  }

  /** A proper prefix of an encoded text is read as a proper prefix of its bytes. */
  lemma CutTextLosesBytes(bytes: seq<Byte>, k: nat, sextet: char -> Option<nat>)
    requires TakesEitherAlphabet(sextet) && k < |Encode(bytes)|
    ensures var read := DecodeLeniently(Encode(bytes)[..k], sextet); |read| < |bytes| && read == bytes[..|read|]
  {
    hide Encode, Values, WholeBytes, Letters, DecodeValues, LetterValue;
    DecodeUndoesEncode(bytes);
    EncodedLength(bytes);
    ValuesOfPrefix(Encode(bytes), k);
    LettersOfStrictText(Encode(bytes)[..k], sextet);
    WholeBytesOfStrictValues(Values(Encode(bytes)).value);
    BytesOfPrefix(Values(Encode(bytes)).value, k);
  }

  // ----- length and letters

  lemma {:induction false} EncodedLength(bytes: seq<Byte>)
    ensures |Encode(bytes)| == (4 * |bytes| + 2) / 3
  {
    if |bytes| > 3 {
      EncodedLength(bytes[3..]);
    }
  }

  /** The unreserved characters of section 4.1 of RFC 7636 that the form uses. */
  predicate Unreserved(c: char) {
    'A' <= c <= 'Z' || 'a' <= c <= 'z' || '0' <= c <= '9' || c == '-' || c == '_'
  }

  lemma {:induction false} EncodedLetters(bytes: seq<Byte>)
    ensures forall i :: 0 <= i < |Encode(bytes)| ==> Unreserved(Encode(bytes)[i])
  {
    if bytes != [] {
      var head := if |bytes| <= 3 then bytes else bytes[..3];
      forall i | 0 <= i < |head| + 1 ensures Unreserved(Spell(GroupValues(head))[i]) {
        LettersHaveTheirValues(GroupValues(head)[i]);
      }
      hide Unreserved, GroupValues;
      if |bytes| > 3 {
        EncodedLetters(bytes[3..]);
      }
    }
  }

  /** The shape that every verifier, state, nonce and challenge must have. */
  predicate OpaquePattern(s: string) {
    43 <= |s| <= 128 && forall i :: 0 <= i < |s| ==> Unreserved(s[i])
  }

  /** Thirty-two bytes always make forty-three letters of the right alphabet: the shape guard never refuses them. */
  lemma ShapeGuardNeverFires(bytes: seq<Byte>)
    requires |bytes| == 32
    ensures |Encode(bytes)| == 43 && OpaquePattern(Encode(bytes))
  {
    EncodedLength(bytes);
    EncodedLetters(bytes);
  }
}
