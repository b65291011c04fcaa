/** Decoding of the `user` cookie's text before it is parsed: plus signs become spaces, as in the
    application/x-www-form-urlencoded format (WHATWG URL Standard, section 5), and then
    `decodeURIComponent` undoes percent-encoding (RFC 3986, section 2.1). The decoder works on
    ASCII escapes; an escape that is malformed or above %7F fails, as a lone such byte does in
    `decodeURIComponent`. */
module UriCodec {
  import opened Common

  predicate IsHexDigit(c: char) {
    ('0' <= c <= '9') || ('a' <= c <= 'f') || ('A' <= c <= 'F')
  }

  function HexValue(c: char): (v: nat)
    requires IsHexDigit(c)
    ensures v < 16
  {
    if '0' <= c <= '9' then c as int - '0' as int
    else if 'a' <= c <= 'f' then c as int - 'a' as int + 10
    else c as int - 'A' as int + 10
  }

  /** The upper-case hexadecimal digit of a value below 16. */
  function HexDigit(v: nat): (c: char)
    requires v < 16
    ensures IsHexDigit(c) && HexValue(c) == v
  {
    if v < 10 then ('0' as int + v) as char else ('A' as int + v - 10) as char
  }

  /** True when `s` has a complete ASCII escape `%XY` at position `i`. */
  predicate EscapeAt(s: string, i: nat) {
    i + 2 < |s| && s[i] == '%' && IsHexDigit(s[i + 1]) && IsHexDigit(s[i + 2]) && HexValue(s[i + 1]) < 8
  }

  /** `decodeURIComponent` over ASCII escapes: `None` is the URIError it throws. */
  function PercentDecode(s: string): (r: Option<string>)
    ensures '%' !in s ==> r == Some(s)
    ensures r.Some? ==> |r.value| <= |s|
  {
    if s == [] then Some([])
    else if s[0] == '%' then
      if EscapeAt(s, 0) then
        match PercentDecode(s[3..])
        case None => None
        case Some(t) => Some([(16 * HexValue(s[1]) + HexValue(s[2])) as char] + t)
      else None
    else
      assert s == [s[0]] + s[1..];
      match PercentDecode(s[1..])
      case None => None
      case Some(t) => Some([s[0]] + t)
  }

  /** Every percent sign starts a complete ASCII escape. */
  predicate WellFormed(s: string) {
    forall i :: 0 <= i < |s| && s[i] == '%' ==> EscapeAt(s, i)
  }

  /** Decoding fails exactly when some percent sign does not start a complete ASCII escape. */
  lemma {:induction false} PercentDecodeSucceedsIff(s: string)
    ensures PercentDecode(s).Some? <==> WellFormed(s)
  {
    if s == [] {
    } else if s[0] == '%' {
      if EscapeAt(s, 0) {
        PercentDecodeSucceedsIff(s[3..]);
        forall i | 0 <= i < |s[3..]| ensures EscapeAt(s[3..], i) <==> EscapeAt(s, i + 3) {}
        assert s[1] != '%' && s[2] != '%';
        if WellFormed(s[3..]) {
          forall i | 0 <= i < |s| && s[i] == '%' ensures EscapeAt(s, i) {
            if i >= 3 { assert s[3..][i - 3] == s[i]; }
          }
        }
        if WellFormed(s) {
          forall i | 0 <= i < |s[3..]| && s[3..][i] == '%' ensures EscapeAt(s[3..], i) {
            assert s[i + 3] == '%';
          }
        }
      } else {
        assert !WellFormed(s);
      }
    } else {
      PercentDecodeSucceedsIff(s[1..]);
      forall i | 0 <= i < |s[1..]| ensures EscapeAt(s[1..], i) <==> EscapeAt(s, i + 1) {}
      if WellFormed(s[1..]) {
        forall i | 0 <= i < |s| && s[i] == '%' ensures EscapeAt(s, i) {
          assert i >= 1 && s[1..][i - 1] == s[i];
        }
      }
      if WellFormed(s) {
        forall i | 0 <= i < |s[1..]| && s[1..][i] == '%' ensures EscapeAt(s[1..], i) {
          assert s[i + 1] == '%';
        }
      }
    }
  }

  /** A decoding result with `x` put in front of the decoded text. */
  function Prefixed(x: string, r: Option<string>): Option<string> {
    match r
    case None => None
    case Some(y) => Some(x + y)
  }

  lemma PrefixedTwice(c: string, x: string, r: Option<string>)
    ensures Prefixed(c, Prefixed(x, r)) == Prefixed(c + x, r)
  {
    if r.Some? {
      assert c + (x + r.value) == (c + x) + r.value;
    }
  }

  /** A string that decodes on its own decodes the same way in front of anything else. */
  lemma {:induction false} PercentDecodeConcat(a: string, b: string)
    requires PercentDecode(a).Some?
    ensures PercentDecode(a + b) == Prefixed(PercentDecode(a).value, PercentDecode(b))
    decreases |a|, 1
  {
    if a == [] {
      assert a + b == b;
      if PercentDecode(b).Some? {
        assert [] + PercentDecode(b).value == PercentDecode(b).value;
      }
    } else if a[0] == '%' {
      PercentDecodeConcatEscape(a, b);
    } else {
      PercentDecodeConcatPlain(a, b);
    }
  }

  /** The step of `PercentDecodeConcat` for a string that starts with an escape. */
  lemma {:induction false} PercentDecodeConcatEscape(a: string, b: string)
    requires a != [] && a[0] == '%' && PercentDecode(a).Some?
    ensures PercentDecode(a + b) == Prefixed(PercentDecode(a).value, PercentDecode(b))
    decreases |a|, 0
  {
    assert EscapeAt(a, 0);
    assert (a + b)[0] == '%' && (a + b)[1] == a[1] && (a + b)[2] == a[2];
    assert EscapeAt(a + b, 0);
    assert (a + b)[3..] == a[3..] + b;
    PercentDecodeConcat(a[3..], b);
    var c := [(16 * HexValue(a[1]) + HexValue(a[2])) as char];
    assert PercentDecode(a + b) == Prefixed(c, PercentDecode(a[3..] + b));
    assert PercentDecode(a).value == c + PercentDecode(a[3..]).value;
    PrefixedTwice(c, PercentDecode(a[3..]).value, PercentDecode(b));
  }

  /** The step of `PercentDecodeConcat` for a string that starts with a plain character. */
  lemma {:induction false} PercentDecodeConcatPlain(a: string, b: string)
    requires a != [] && a[0] != '%' && PercentDecode(a).Some?
    ensures PercentDecode(a + b) == Prefixed(PercentDecode(a).value, PercentDecode(b))
    decreases |a|, 0
  {
    assert (a + b)[0] == a[0] && a + b != [];
    assert (a + b)[1..] == a[1..] + b;
    PercentDecodeConcat(a[1..], b);
    assert PercentDecode(a + b) == Prefixed([a[0]], PercentDecode(a[1..] + b));
    assert PercentDecode(a).value == [a[0]] + PercentDecode(a[1..]).value;
    PrefixedTwice([a[0]], PercentDecode(a[1..]).value, PercentDecode(b));
  }

  /** The cookie-text decoding done by `getUserFromCookie` and the dashboard: `+` to space, then
      percent-decoding. */
  function FormDecode(s: string): (r: Option<string>)
    ensures r.Some? <==> WellFormed(ReplacePlus(s))
    ensures '%' !in s ==> r == Some(ReplacePlus(s))
  {
    PercentDecodeSucceedsIff(ReplacePlus(s));
    assert '%' !in s ==> '%' !in ReplacePlus(s);
    PercentDecode(ReplacePlus(s))
  }

  /** Characters an application/x-www-form-urlencoded serializer leaves as they are. */
  predicate IsFormSafe(c: char) {
    ('A' <= c <= 'Z') || ('a' <= c <= 'z') || ('0' <= c <= '9') || c == '*' || c == '-' || c == '.' || c == '_'
  }

  /** How a server form-encodes one character of the cookie value: space becomes `+`, every other
      ASCII character that is not safe becomes `%XY`. Characters beyond ASCII pass unchanged. */
  function EncodeChar(c: char): string {
    if c == ' ' then "+"
    else if IsFormSafe(c) || c as int >= 128 then [c]
    else "%" + [HexDigit(c as int / 16), HexDigit(c as int % 16)]
  }

  function FormEncode(s: string): string {
    if s == [] then [] else EncodeChar(s[0]) + FormEncode(s[1..])
  }

  lemma EncodeCharDecodes(c: char, rest: string)
    ensures PercentDecode(ReplacePlus(EncodeChar(c)) + rest) ==
      match PercentDecode(rest)
      case None => None
      case Some(t) => Some([c] + t)
  {
  }

  /** A value the server form-encodes into the cookie comes back unchanged, whatever spaces, plus
      signs or percent signs it holds: a literal `+` travels as `%2B` and a space as `+`. */
  lemma {:induction false} FormDecodeEncode(s: string)
    ensures FormDecode(FormEncode(s)) == Some(s)
  {
    if s != [] {
      FormDecodeEncode(s[1..]);
      ReplacePlusConcat(EncodeChar(s[0]), FormEncode(s[1..]));
      EncodeCharDecodes(s[0], ReplacePlus(FormEncode(s[1..])));
      assert [s[0]] + s[1..] == s;
    }
  }

  /** Form decoding of a concatenation, when the first piece decodes on its own. */
  lemma FormDecodeConcat(a: string, b: string)
    requires FormDecode(a).Some?
    ensures FormDecode(a + b) ==
      match FormDecode(b)
      case None => None
      case Some(y) => Some(FormDecode(a).value + y)
  {
    ReplacePlusConcat(a, b);
    PercentDecodeConcat(ReplacePlus(a), ReplacePlus(b));
  }

  /** A plus sign between two decodable pieces decodes to a space. */
  lemma PlusIsSpace(a: string, b: string)
    requires FormDecode(a).Some? && FormDecode(b).Some?
    ensures FormDecode(a + "+" + b) == Some(FormDecode(a).value + " " + FormDecode(b).value)
  {
    assert ReplacePlus("+") == " ";
    assert PercentDecode(" ") == Some(" ");
    FormDecodeConcat(a, "+");
    FormDecodeConcat(a + "+", b);
  }

  /** The escape `%2B` between two decodable pieces decodes to a literal plus sign. */
  lemma EscapedPlusIsPlus(a: string, b: string)
    requires FormDecode(a).Some? && FormDecode(b).Some?
    ensures FormDecode(a + "%2B" + b) == Some(FormDecode(a).value + "+" + FormDecode(b).value)
  {
    assert ReplacePlus("%2B") == "%2B";
    assert EscapeAt("%2B", 0);
    var e := "%2B";
    assert e[3..] == [] && e[1] == '2' && e[2] == 'B';
    assert HexValue('2') == 2 && HexValue('B') == 11;
    assert (16 * 2 + 11) as char == '+';
    assert PercentDecode(e[3..]) == Some([]);
    assert PercentDecode(e) == Some([(16 * HexValue(e[1]) + HexValue(e[2])) as char] + []);
    assert [(16 * HexValue(e[1]) + HexValue(e[2])) as char] + [] == "+";
    assert PercentDecode(e) == Some("+");
    FormDecodeConcat(a, "%2B");
    FormDecodeConcat(a + "%2B", b);
  }
}
