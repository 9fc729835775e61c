/** The prefix cache salt: what goes into the keyed hash can be read back, and what
    comes out of it loses nothing on the way to text. */
module PrefixSalt {
  import opened Wrappers
  import opened Router

  type Byte = b: int | 0 <= b < 256

  // ----- the hash's input -----

  const SEPARATOR: char := 31 as char

  function ClassificationText(c: Classification): string {
    match c
    case PUBLIC => "PUBLIC"
    case INTERNAL => "INTERNAL"
    case RESTRICTED => "RESTRICTED"
  }

  function Message(tenant: string, c: Classification): string {
    tenant + [SEPARATOR] + ClassificationText(c)
  }

  // What stands before and after the last separator.
  function SplitAtLast(s: string): (string, string)
    requires SEPARATOR in s
  {
    if s[|s| - 1] == SEPARATOR then (s[..|s| - 1], "")
    else
      assert s == s[..|s| - 1] + [s[|s| - 1]];
      var (a, b) := SplitAtLast(s[..|s| - 1]);
      (a, b + [s[|s| - 1]])
  }

  lemma {:induction false} SplitFindsLast(a: string, b: string)
    requires SEPARATOR !in b
    ensures SEPARATOR in a + [SEPARATOR] + b && SplitAtLast(a + [SEPARATOR] + b) == (a, b)
  {
    var s := a + [SEPARATOR] + b;
    assert s[|a|] == SEPARATOR;
    if b == [] {
      assert s[..|s| - 1] == a;
    } else {
      var front := b[..|b| - 1];
      assert b == front + [b[|b| - 1]];
      assert s[..|s| - 1] == a + [SEPARATOR] + front;
      assert b[|b| - 1] in b && s[|s| - 1] == b[|b| - 1];
      SplitFindsLast(a, front);
    }
  }

  lemma ClassificationTexts(c: Classification, d: Classification)
    ensures SEPARATOR !in ClassificationText(c)
    ensures ClassificationText(c) == ClassificationText(d) ==> c == d
  {
    assert |"PUBLIC"| == 6 && |"INTERNAL"| == 8 && |"RESTRICTED"| == 10;
  }

  // The input splits back into tenant and classification for every tenant, even
  // one that contains the separator, so different pairs have different inputs.
  lemma MessageReadsBack(tenant: string, c: Classification)
    ensures SEPARATOR in Message(tenant, c)
    ensures SplitAtLast(Message(tenant, c)) == (tenant, ClassificationText(c))
  {
    ClassificationTexts(c, c);
    SplitFindsLast(tenant, ClassificationText(c));
  }

  // Tenant, the unit separator (U+001F), and the class by name.
  lemma MessageExample()
    ensures Message("hr", INTERNAL) == ['h', 'r', 31 as char, 'I', 'N', 'T', 'E', 'R', 'N', 'A', 'L']
    ensures Message("hr", PUBLIC) == ['h', 'r', 31 as char, 'P', 'U', 'B', 'L', 'I', 'C']
    ensures Message("hr", RESTRICTED) == ['h', 'r', 31 as char, 'R', 'E', 'S', 'T', 'R', 'I', 'C', 'T', 'E', 'D']
  {
  }

  lemma MessagesDiffer(t: string, c: Classification, u: string, d: Classification)
    ensures Message(t, c) == Message(u, d) <==> t == u && c == d
  {
    MessageReadsBack(t, c);
    MessageReadsBack(u, d);
    ClassificationTexts(c, d);
  }

  // ----- base64 with the URL alphabet, section 5 of RFC 4648 -----

  function Symbol(n: int): char
    requires 0 <= n < 64
  {
    if n < 26 then 'A' + n as char
    else if n < 52 then 'a' + (n - 26) as char
    else if n < 62 then '0' + (n - 52) as char
    else if n == 62 then '-'
    else '_'
  }

  function SymbolValue(c: char): int {
    if 'A' <= c <= 'Z' then (c - 'A') as int
    else if 'a' <= c <= 'z' then (c - 'a') as int + 26
    else if '0' <= c <= '9' then (c - '0') as int + 52
    else if c == '-' then 62
    else if c == '_' then 63
    else -1
  }

  lemma SymbolReadsBack(n: int)
    requires 0 <= n < 64
    ensures SymbolValue(Symbol(n)) == n && Symbol(n) != '='
  {
  }

  // The alphabet of table 2 of RFC 4648: upper case, lower case, digits, each in
  // order, then the two signs.
  lemma AlphabetMeans(n: int)
    requires 0 <= n < 63
    ensures Symbol(0) == 'A' && Symbol(25) == 'Z' && Symbol(26) == 'a' && Symbol(51) == 'z'
    ensures Symbol(52) == '0' && Symbol(61) == '9' && Symbol(62) == '-' && Symbol(63) == '_'
    ensures n !in {25, 51, 61, 62} ==> Symbol(n + 1) as int == Symbol(n) as int + 1
  {
  }

  // Three bytes become four symbols; a shorter last group is padded.
  function Encode(bs: seq<Byte>): string {
    if |bs| == 0 then ""
    else if |bs| == 1 then [Symbol(bs[0] / 4), Symbol(bs[0] % 4 * 16), '=', '=']
    else if |bs| == 2 then
      [Symbol(bs[0] / 4), Symbol(bs[0] % 4 * 16 + bs[1] / 16), Symbol(bs[1] % 16 * 4), '=']
    else
      [Symbol(bs[0] / 4), Symbol(bs[0] % 4 * 16 + bs[1] / 16), Symbol(bs[1] % 16 * 4 + bs[2] / 64), Symbol(bs[2] % 64)]
      + Encode(bs[3..])
  }

  // Test vectors of section 10 of RFC 4648: "f", "fo" and "foo".
  lemma TestVectors(f: seq<Byte>, fo: seq<Byte>, foo: seq<Byte>)
    requires f == [102] && fo == [102, 111] && foo == [102, 111, 111]
    ensures Encode(f) == ['Z', 'g', '=', '='] && Encode(fo) == ['Z', 'm', '8', '=']
    ensures Encode(foo) == ['Z', 'm', '9', 'v']
  {
    assert Symbol(25) == 'Z' && Symbol(32) == 'g' && Symbol(38) == 'm';
    assert Symbol(60) == '8' && Symbol(61) == '9' && Symbol(47) == 'v';
    assert foo[3..] == [] && Encode(foo[3..]) == [];
    assert Encode(foo) == ['Z', 'm', '9', 'v'] + [];
  }

  function StripPadding(s: string): string {
    if s != "" && s[|s| - 1] == '=' then StripPadding(s[..|s| - 1]) else s
  }

  // The three bytes that four symbols spell.
  function FirstByte(a: int, b: int): int { a * 4 + b / 16 }

  function SecondByte(b: int, c: int): int { b % 16 * 16 + c / 4 }

  function ThirdByte(c: int, d: int): int { c % 4 * 64 + d }

  // Reads unpadded text back.
  function Decode(s: string): Option<seq<int>> {
    if |s| == 0 then Some([])
    else if |s| == 1 then None
    else
      var a, b := SymbolValue(s[0]), SymbolValue(s[1]);
      if a < 0 || b < 0 then None
      else if |s| == 2 then Some([FirstByte(a, b)])
      else
        var c := SymbolValue(s[2]);
        if c < 0 then None
        else if |s| == 3 then Some([FirstByte(a, b), SecondByte(b, c)])
        else
          var d := SymbolValue(s[3]);
          if d < 0 then None
          else
            match Decode(s[4..])
            case None => None
            case Some(rest) => Some([FirstByte(a, b), SecondByte(b, c), ThirdByte(c, d)] + rest)
  }

  // A front that does not end in padding is kept whole.
  lemma {:induction false} StripFront(front: string, s: string)
    requires front != "" && front[|front| - 1] != '='
    ensures StripPadding(front + s) == front + StripPadding(s)
  {
    if s == "" {
      assert front + s == front;
    } else if s[|s| - 1] == '=' {
      assert (front + s)[..|front + s| - 1] == front + s[..|s| - 1];
      StripFront(front, s[..|s| - 1]);
    }
  }

  lemma PaddingOnly()
    ensures StripPadding(['=']) == "" && StripPadding(['=', '=']) == ""
  {
    assert ['='][..0] == "";
    assert ['=', '='][..1] == ['='];
  }

  // The bits of three bytes, regrouped by six and back.
  lemma Regroup(x: Byte, y: Byte, z: Byte)
    ensures var a, b, c, d := x / 4, x % 4 * 16 + y / 16, y % 16 * 4 + z / 64, z % 64;
      && 0 <= a < 64 && 0 <= b < 64 && 0 <= c < 64 && 0 <= d < 64
      && FirstByte(a, b) == x && SecondByte(b, c) == y && ThirdByte(c, d) == z
  {
  }

  // Unpadded text of n bytes has the length the standard gives, and decodes to
  // the bytes it came from.
  lemma {:induction false} UnpaddedReadsBack(bs: seq<Byte>)
    ensures |StripPadding(Encode(bs))| == (4 * |bs| + 2) / 3
    ensures Decode(StripPadding(Encode(bs))) == Some(bs)
  {
    PaddingOnly();
    if |bs| == 0 {
    } else if |bs| == 1 {
      ShortText(bs[0], 0);
      var s := [Symbol(bs[0] / 4), Symbol(bs[0] % 4 * 16)];
      assert Encode(bs) == s + ['=', '='];
      StripFront(s, ['=', '=']);
      assert bs == [bs[0]];
    } else if |bs| == 2 {
      ShortText(bs[0], bs[1]);
      var s := [Symbol(bs[0] / 4), Symbol(bs[0] % 4 * 16 + bs[1] / 16), Symbol(bs[1] % 16 * 4)];
      assert Encode(bs) == s + ['='];
      StripFront(s, ['=']);
      assert bs == [bs[0], bs[1]];
    } else {
      UnpaddedReadsBack(bs[3..]);
      WholeGroup(bs);
    }
  }

  // Groups of one and of two bytes; the unused bits are zero.
  lemma ShortText(x: Byte, y: Byte)
    ensures Decode([Symbol(x / 4), Symbol(x % 4 * 16)]) == Some([x])
    ensures Decode([Symbol(x / 4), Symbol(x % 4 * 16 + y / 16), Symbol(y % 16 * 4)]) == Some([x, y])
    ensures Symbol(x % 4 * 16) != '=' && Symbol(y % 16 * 4) != '='
  {
    hide Symbol, SymbolValue, FirstByte, SecondByte, ThirdByte;
    Regroup(x, 0, 0);
    Regroup(x, y, 0);
    SymbolReadsBack(x / 4);
    SymbolReadsBack(x % 4 * 16);
    SymbolReadsBack(x % 4 * 16 + y / 16);
    SymbolReadsBack(y % 16 * 4);
  }

  lemma WholeGroup(bs: seq<Byte>)
    requires |bs| >= 3
    requires var rest := StripPadding(Encode(bs[3..]));
      |rest| == (4 * (|bs| - 3) + 2) / 3 && Decode(rest) == Some(bs[3..])
    ensures |StripPadding(Encode(bs))| == (4 * |bs| + 2) / 3
    ensures Decode(StripPadding(Encode(bs))) == Some(bs)
  {
    hide Encode, Decode, Symbol, SymbolValue, StripPadding, FirstByte, SecondByte, ThirdByte;
    var x, y, z := bs[0], bs[1], bs[2];
    var a, b, c, d := x / 4, x % 4 * 16 + y / 16, y % 16 * 4 + z / 64, z % 64;
    Regroup(x, y, z);
    EncodeGroup(bs, a, b, c, d);
    GroupThenRest(bs, a, b, c, d);
  }

  lemma GroupThenRest(bs: seq<Byte>, a: int, b: int, c: int, d: int)
    requires |bs| >= 3 && 0 <= a < 64 && 0 <= b < 64 && 0 <= c < 64 && 0 <= d < 64
    requires FirstByte(a, b) == bs[0] && SecondByte(b, c) == bs[1] && ThirdByte(c, d) == bs[2]
    requires Encode(bs) == [Symbol(a), Symbol(b), Symbol(c), Symbol(d)] + Encode(bs[3..])
    requires Decode(StripPadding(Encode(bs[3..]))) == Some(bs[3..])
    ensures |StripPadding(Encode(bs))| == 4 + |StripPadding(Encode(bs[3..]))|
    ensures Decode(StripPadding(Encode(bs))) == Some(bs)
  {
    hide Encode, Decode, Symbol, SymbolValue, StripPadding, FirstByte, SecondByte, ThirdByte;
    SymbolReadsBack(a);
    SymbolReadsBack(b);
    SymbolReadsBack(c);
    SymbolReadsBack(d);
    var group := [Symbol(a), Symbol(b), Symbol(c), Symbol(d)];
    StripFront(group, Encode(bs[3..]));
    DecodeGroup(group, StripPadding(Encode(bs[3..])), bs[0], bs[1], bs[2]);
    assert bs == [bs[0], bs[1], bs[2]] + bs[3..];
  }

  lemma EncodeGroup(bs: seq<Byte>, a: int, b: int, c: int, d: int)
    requires |bs| >= 3 && 0 <= a < 64 && 0 <= b < 64 && 0 <= c < 64 && 0 <= d < 64
    requires a == bs[0] / 4 && b == bs[0] % 4 * 16 + bs[1] / 16 && c == bs[1] % 16 * 4 + bs[2] / 64 && d == bs[2] % 64
    ensures Encode(bs) == [Symbol(a), Symbol(b), Symbol(c), Symbol(d)] + Encode(bs[3..])
  {
  }

  lemma DecodeGroup(group: string, rest: string, x: Byte, y: Byte, z: Byte)
    requires |group| == 4 && Decode(rest).Some?
    requires forall i | 0 <= i < 4 :: SymbolValue(group[i]) >= 0
    requires var a, b := SymbolValue(group[0]), SymbolValue(group[1]);
      var c, d := SymbolValue(group[2]), SymbolValue(group[3]);
      FirstByte(a, b) == x && SecondByte(b, c) == y && ThirdByte(c, d) == z
    ensures Decode(group + rest) == Some([x, y, z] + Decode(rest).value)
  {
  }

  // ----- the salt -----

  datatype SaltError = NoKey | NoTenant

  // The keyed hash is given; only that it is a function of key and message is used.
  function Salt(hmac: (seq<Byte>, string) -> seq<Byte>, key: seq<Byte>, c: Classification, tenant: string)
    : Result<string, SaltError>
  {
    if key == [] then Err(NoKey)
    else if tenant == "" then Err(NoTenant)
    else Ok(StripPadding(Encode(hmac(key, Message(tenant, c)))))
  }

  // Two salts under one key agree exactly when the hash gives the same digest, so
  // different tenants or classifications share a salt only if the hash collides
  // on two different inputs. A digest of 32 bytes gives 43 characters.
  lemma SaltsSeparate(hmac: (seq<Byte>, string) -> seq<Byte>, key: seq<Byte>,
                      c: Classification, t: string, d: Classification, u: string)
    requires key != [] && t != "" && u != ""
    ensures Salt(hmac, key, c, t).Ok? && Salt(hmac, key, d, u).Ok?
    ensures Salt(hmac, key, c, t) == Salt(hmac, key, d, u) <==> hmac(key, Message(t, c)) == hmac(key, Message(u, d))
    ensures Salt(hmac, key, c, t) == Salt(hmac, key, d, u) && (c, t) != (d, u) ==>
              exists m, n :: m != n && hmac(key, m) == hmac(key, n)
    ensures |hmac(key, Message(t, c))| == 32 ==> |Salt(hmac, key, c, t).value| == 43
  {
    UnpaddedReadsBack(hmac(key, Message(t, c)));
    UnpaddedReadsBack(hmac(key, Message(u, d)));
    MessagesDiffer(t, c, u, d);
  }
}
