/**
  Text helpers shared by the SMS back ends: the emoji filter applied to outgoing and incoming
  message bodies, ASCII lower-casing, and the normalisation of phone numbers to E.164.

  The `phonenumbers` library is not modelled; `PhoneLib` is an oracle that parses a number with an
  optional default region and returns its E.164 rendering, or None for a parse error.
*/
module Text {
  import opened Wrappers

  /** The four code-point ranges the emoji pattern matches. */
  predicate IsEmoji(c: char) {
    || ('\U{1F300}' <= c <= '\U{1F64F}')
    || ('\U{1F680}' <= c <= '\U{1F6FF}')
    || ('\U{2600}' <= c <= '\U{26FF}')
    || ('\U{2700}' <= c <= '\U{27BF}')
  }

  predicate NoEmoji(s: string) {
    forall i :: 0 <= i < |s| ==> !IsEmoji(s[i])
  }

  /** Removes every emoji character, keeping the others in their order. */
  function CleanText(s: string): (r: string)
    ensures |r| <= |s|
    ensures NoEmoji(r)
  {
    if s == [] then []
    else (if IsEmoji(s[0]) then [] else [s[0]]) + CleanText(s[1..])
  }

  /** Cleaning distributes over concatenation: each character is kept or dropped on its own. */
  lemma {:induction false} CleanTextConcat(a: string, b: string)
    ensures CleanText(a + b) == CleanText(a) + CleanText(b)
  {
    if a == [] {
      assert a + b == b;
    } else {
      assert (a + b)[1..] == a[1..] + b;
      CleanTextConcat(a[1..], b);
    }
  }

  /** A text is left as it is exactly when it holds no emoji. */
  lemma {:induction false} CleanTextFixedPoint(s: string)
    ensures CleanText(s) == s <==> NoEmoji(s)
  {
    if s != [] {
      CleanTextFixedPoint(s[1..]);
      if !IsEmoji(s[0]) {
        assert NoEmoji(s) <==> NoEmoji(s[1..]) by {
          if NoEmoji(s[1..]) {
            forall i | 0 <= i < |s| ensures !IsEmoji(s[i]) {
              if i > 0 { assert s[i] == s[1..][i - 1]; }
            }
          }
        }
      } else {
        assert |CleanText(s)| < |s|;
      }
    }
  }

  /** Cleaning twice is cleaning once. */
  lemma CleanTextIdempotent(s: string)
    ensures CleanText(CleanText(s)) == CleanText(s)
  {
    CleanTextFixedPoint(CleanText(s));
  }

  /** Every character outside the emoji ranges keeps its number of occurrences. */
  lemma {:induction false} CleanTextKeepsOthers(s: string, c: char)
    requires !IsEmoji(c)
    ensures multiset(CleanText(s))[c] == multiset(s)[c]
  {
    if s != [] {
      CleanTextKeepsOthers(s[1..], c);
      var h := if IsEmoji(s[0]) then [] else [s[0]];
      assert s == [s[0]] + s[1..];
      assert multiset(CleanText(s)) == multiset(h) + multiset(CleanText(s[1..]));
      assert multiset(h)[c] == multiset([s[0]])[c];
    }
  }

  /** ASCII lower-casing, as `str.lower()` behaves on ASCII text. */
  function LowerChar(c: char): (r: char)
    ensures 'A' <= c <= 'Z' ==> 'a' <= r <= 'z'
    ensures !('A' <= c <= 'Z') ==> r == c
  {
    if 'A' <= c <= 'Z' then (c as int + 32) as char else c
  }

  function Lower(s: string): (r: string)
    ensures |r| == |s|
    ensures forall i :: 0 <= i < |s| ==> r[i] == LowerChar(s[i])
  {
    if s == [] then [] else [LowerChar(s[0])] + Lower(s[1..])
  }

  /** The characters Python 3's `str.isspace()` accepts (Unicode 6.3 and later), which `str.strip()`
      removes. Python 2.7's tables (Unicode 5.2) also count U+180E. */
  predicate IsSpace(c: char) {
    || c == ' ' || '\t' <= c <= '\r' || '\U{1C}' <= c <= '\U{1F}' || c == '\U{85}' || c == '\U{A0}'
    || c == '\U{1680}' || '\U{2000}' <= c <= '\U{200A}' || c == '\U{2028}' || c == '\U{2029}'
    || c == '\U{202F}' || c == '\U{205F}' || c == '\U{3000}'
  }

  /** The first index from `i` on that does not hold whitespace, or |s|. */
  function SpanStart(s: string, i: nat): (j: nat)
    requires i <= |s|
    ensures i <= j <= |s|
    ensures forall k :: i <= k < j ==> IsSpace(s[k])
    ensures j == |s| || !IsSpace(s[j])
    decreases |s| - i
  {
    if i < |s| && IsSpace(s[i]) then SpanStart(s, i + 1) else i
  }

  /** The end of `s[lo..j]` once its trailing whitespace is dropped. */
  function SpanEnd(s: string, lo: nat, j: nat): (e: nat)
    requires lo <= j <= |s|
    ensures lo <= e <= j
    ensures forall k :: e <= k < j ==> IsSpace(s[k])
    ensures e == lo || !IsSpace(s[e - 1])
  {
    if lo < j && IsSpace(s[j - 1]) then SpanEnd(s, lo, j - 1) else j
  }

  /** `s.lstrip()`: drops the leading whitespace and nothing else. */
  function StripStart(s: string): (r: string)
    ensures |r| <= |s| && r == s[|s| - |r|..]
    ensures forall k :: 0 <= k < |s| - |r| ==> IsSpace(s[k])
    ensures r == [] || !IsSpace(r[0])
  {
    s[SpanStart(s, 0)..]
  }

  /** `s.rstrip()`: drops the trailing whitespace and nothing else. */
  function StripEnd(s: string): (r: string)
    ensures |r| <= |s| && r == s[..|r|]
    ensures forall k :: |r| <= k < |s| ==> IsSpace(s[k])
    ensures r == [] || !IsSpace(r[|r| - 1])
  {
    s[..SpanEnd(s, 0, |s|)]
  }

  /** `s.strip()`: the text between the leading and the trailing whitespace. */
  function Strip(s: string): (r: string)
    ensures r == [] || (!IsSpace(r[0]) && !IsSpace(r[|r| - 1]))
    ensures var i := |s| - |StripStart(s)|;
      && i + |r| <= |s| && r == s[i..i + |r|]
      && (forall k :: 0 <= k < i ==> IsSpace(s[k]))
      && (forall k :: i + |r| <= k < |s| ==> IsSpace(s[k]))
  {
    var i := SpanStart(s, 0);
    var e := SpanEnd(s, i, |s|);
    StripEnds(s, i, e);
    StripBetween(s, i, e);
    s[i..e]
  }

  /** The stripped text neither starts nor ends with whitespace. */
  lemma StripEnds(s: string, i: nat, e: nat)
    requires i == SpanStart(s, 0) && i <= e <= |s| && e == SpanEnd(s, i, |s|)
    ensures var r := s[i..e]; r == [] || (!IsSpace(r[0]) && !IsSpace(r[|r| - 1]))
  {
    if i < e {
      assert s[i..e][0] == s[i];
      assert s[i..e][e - i - 1] == s[e - 1];
    }
  }

  /** The stripped text sits between two runs of whitespace. */
  lemma StripBetween(s: string, i: nat, e: nat)
    requires i == SpanStart(s, 0) && i <= e <= |s| && e == SpanEnd(s, i, |s|)
    ensures |s| - |StripStart(s)| == i
    ensures forall k :: 0 <= k < i ==> IsSpace(s[k])
    ensures forall k :: e <= k < |s| ==> IsSpace(s[k])
  {
  }

  /** Stripping twice strips nothing more. */
  lemma StripIdempotent(s: string)
    ensures Strip(Strip(s)) == Strip(s)
  {
    var r := Strip(s);
    assert SpanStart(r, 0) == 0;
    assert SpanEnd(r, 0, |r|) == |r|;
    assert r[0..|r|] == r;
  }

  predicate StartsWith(s: string, prefix: string) {
    |prefix| <= |s| && s[..|prefix|] == prefix
  }

  predicate EndsWith(s: string, suffix: string) {
    |suffix| <= |s| && s[|s| - |suffix|..] == suffix
  }

  /** The phonenumbers library: parse `text` with an optional default region and format it as E.164. */
  datatype PhoneLib = PhoneLib(parse: (string, Option<string>) -> Option<string>)

  /** A parse error raised by the phonenumbers library. */
  datatype NumberParseError = NumberParseError

  /** What the library is assumed to do with its own output: an E.164 number starts with '+' and
      parses, without a default region, to itself. */
  ghost predicate Stable(lib: PhoneLib) {
    forall text, region, n :: lib.parse(text, region) == Some(n) ==>
      |n| > 0 && n[0] == '+' && lib.parse(n, None) == Some(n)
  }

  /** The default region: none for a number that starts with '+', the United States otherwise. */
  function Region(phone: string): (r: Option<string>)
    requires phone != ""
    ensures r == None <==> phone[0] == '+'
    ensures r != None ==> r == Some("US")
  {
    if StartsWith(phone, "+") then None else Some("US")
  }

  /** format_phone: '' for an empty number, otherwise the E.164 form or the library's parse error. */
  function FormatPhone(lib: PhoneLib, phone: string): (r: Result<string, NumberParseError>)
    ensures phone == "" ==> r == Success("")
    ensures phone != "" && r.Success? ==> lib.parse(phone, Region(phone)) == Some(r.value)
    ensures phone != "" && r.Failure? ==> lib.parse(phone, Region(phone)) == None
  {
    if phone == "" then Success("")
    else match lib.parse(phone, Region(phone)) {
      case None => Failure(NumberParseError)
      case Some(n) => Success(n)
    }
  }

  /** A number format_phone has produced is a fixed point of format_phone. */
  predicate Formatted(lib: PhoneLib, phone: string) {
    FormatPhone(lib, phone) == Success(phone)
  }

  /** Normalising a normalised number changes nothing, for a library that is Stable. */
  lemma FormatPhoneIdempotent(lib: PhoneLib, phone: string)
    requires Stable(lib)
    requires FormatPhone(lib, phone).Success?
    ensures Formatted(lib, FormatPhone(lib, phone).value)
  {
    if phone != "" {
      var n := FormatPhone(lib, phone).value;
      assert lib.parse(phone, Region(phone)) == Some(n);
      assert n[0] == '+' && lib.parse(n, None) == Some(n);
      assert Region(n) == None;
    }
  }
}
