/**
 * Phone-number normalisation of the airtime reminder screen
 * (`normalizePhone` in day6-expo-airtime/App.js).
 *
 * The input has every white-space character removed, then one leading `+`.
 * The cleaned string is rewritten from the local form (`07…`/`01…`: the
 * leading `0` becomes `254`) or passed through in the canonical form
 * (`2547…`/`2541…`); anything else is rejected with `None`.
 *
 * Both patterns end in a tail check. Everything here is stated for an
 * arbitrary tail predicate (`NormalizeBy`), and then instantiated twice:
 * `Normalize` with `TailOk`, the tail the source's regular expressions
 * actually accept, and `NormalizeIntended` with `EightDigits`, the tail the
 * screen's comment, input placeholder and invalid-phone alert describe.
 */
module Phone {
  import opened Wrappers

  /** The characters JavaScript's `\s` class and `String.prototype.trim` both
      treat as blank: WhiteSpace (tab, vertical tab, form feed, byte-order mark
      and every space separator of category Zs) and LineTerminator (line feed,
      carriage return, line separator, paragraph separator). */
  predicate IsWhitespace(c: char) {
    || c == '\t' || c == '\n' || c == '\U{000B}' || c == '\U{000C}' || c == '\r'
    || c == ' ' || c == '\U{00A0}' || c == '\U{1680}'
    || ('\U{2000}' <= c <= '\U{200A}')
    || c == '\U{2028}' || c == '\U{2029}' || c == '\U{202F}' || c == '\U{205F}'
    || c == '\U{3000}' || c == '\U{FEFF}'
  }

  predicate NoWhitespace(s: string) {
    forall i :: 0 <= i < |s| ==> !IsWhitespace(s[i])
  }

  predicate AllWhitespace(s: string) {
    forall i :: 0 <= i < |s| ==> IsWhitespace(s[i])
  }

  /** `input.replace(/\s+/g, '')`: every white-space character removed, the
      others kept in order. */
  function StripWhitespace(s: string): (r: string)
    ensures NoWhitespace(r)
    ensures |r| <= |s|
    ensures NoWhitespace(s) ==> r == s
    ensures AllWhitespace(s) ==> r == []
  {
    if s == [] then []
    else if IsWhitespace(s[0]) then StripWhitespace(s[1..])
    else [s[0]] + StripWhitespace(s[1..])
  }

  /** Removing white space commutes with concatenation, so it is exactly the
      character-by-character filter. */
  lemma {:induction false} StripWhitespaceAppend(a: string, b: string)
    ensures StripWhitespace(a + b) == StripWhitespace(a) + StripWhitespace(b)
    decreases |a|
  {
    if a == [] {
      assert a + b == b;
    } else {
      assert (a + b)[0] == a[0];
      assert (a + b)[1..] == a[1..] + b;
      StripWhitespaceAppend(a[1..], b);
    }
  }

  /** `.replace(/^\+/, '')`: at most one leading plus sign removed. */
  function StripPlus(s: string): (r: string)
    ensures |s| > 0 && s[0] == '+' ==> s == "+" + r
    ensures !(|s| > 0 && s[0] == '+') ==> r == s
  {
    if |s| > 0 && s[0] == '+' then s[1..] else s
  }

  /** The string the two patterns are tested against. */
  function Clean(input: string): (p: string)
    ensures NoWhitespace(p)
    ensures var w := StripWhitespace(input); if |w| > 0 && w[0] == '+' then w == "+" + p else p == w
  {
    StripPlus(StripWhitespace(input))
  }

  /** `/^(07|01)…$/` with the given tail check: the string starts with one of
      the two local prefixes and the rest passes the tail check. */
  predicate LocalBy(tailOk: string -> bool, p: string)
    ensures LocalBy(tailOk, p) <==> |p| >= 2 && (p[..2] == "07" || p[..2] == "01") && tailOk(p[2..])
  {
    |p| >= 2 && p[0] == '0' && (p[1] == '7' || p[1] == '1') && tailOk(p[2..])
  }

  /** `/^254(7|1)…$/` with the given tail check: the string starts with one
      of the two international prefixes and the rest passes the tail check. */
  predicate CanonicalBy(tailOk: string -> bool, p: string)
    ensures CanonicalBy(tailOk, p) <==> |p| >= 4 && (p[..4] == "2547" || p[..4] == "2541") && tailOk(p[4..])
  {
    |p| >= 4 && p[..3] == "254" && (p[3] == '7' || p[3] == '1') && tailOk(p[4..])
  }

  /** A local number starts with `0`, a canonical one with `2`: no string is both. */
  lemma PatternsDisjoint(tailOk: string -> bool, p: string)
    ensures !(LocalBy(tailOk, p) && CanonicalBy(tailOk, p))
  {
    if CanonicalBy(tailOk, p) {
      assert p[0] == p[..3][0] == '2';
    }
  }

  /** `normalizePhone` for an arbitrary tail check. The result, when present,
      is canonical, free of white space and non-empty (so the caller's `!n`
      test is exactly a test for `null`); the local form has its `0` replaced
      by `254`; the canonical form comes back unchanged; every other cleaned
      string is rejected. */
  function NormalizeBy(tailOk: string -> bool, input: string): (r: Option<string>)
    ensures r.Some? <==> LocalBy(tailOk, Clean(input)) || CanonicalBy(tailOk, Clean(input))
    ensures LocalBy(tailOk, Clean(input)) ==> r == Some("254" + Clean(input)[1..])
    ensures CanonicalBy(tailOk, Clean(input)) ==> r == Some(Clean(input))
    ensures r.Some? ==> CanonicalBy(tailOk, r.value) && NoWhitespace(r.value)
    ensures r.Some? ==> |r.value| > 0
  {
    var p := Clean(input);
    if LocalBy(tailOk, p) then
      var q := "254" + p[1..];
      assert q[..3] == "254" && q[3] == p[1] && q[4..] == p[2..];
      Some(q)
    else if CanonicalBy(tailOk, p) then Some(p)
    else None
  }

  /** A canonical string without white space is a fixed point. */
  lemma CanonicalIsFixedPoint(tailOk: string -> bool, s: string)
    requires CanonicalBy(tailOk, s) && NoWhitespace(s)
    ensures NormalizeBy(tailOk, s) == Some(s)
  {
    assert s[0] == s[..3][0];
    assert Clean(s) == s;
  }

  /** Normalising an already normalised number changes nothing. */
  lemma NormalizeIdempotent(tailOk: string -> bool, input: string)
    requires NormalizeBy(tailOk, input).Some?
    ensures NormalizeBy(tailOk, NormalizeBy(tailOk, input).value) == NormalizeBy(tailOk, input)
  {
    CanonicalIsFixedPoint(tailOk, NormalizeBy(tailOk, input).value);
  }

  /** White space before and after the number does not affect the result. */
  lemma NormalizeIgnoresPadding(tailOk: string -> bool, pre: string, s: string, post: string)
    requires AllWhitespace(pre) && AllWhitespace(post)
    ensures NormalizeBy(tailOk, pre + s + post) == NormalizeBy(tailOk, s)
  {
    StripWhitespaceAppend(pre + s, post);
    StripWhitespaceAppend(pre, s);
    assert Clean(pre + s + post) == Clean(s);
  }

  /** One leading `+` is dropped before the patterns are tested (only one:
      after it, the cleaned number must not start with another). */
  lemma NormalizeIgnoresPlus(tailOk: string -> bool, s: string)
    requires StripWhitespace(s) == [] || StripWhitespace(s)[0] != '+'
    ensures NormalizeBy(tailOk, "+" + s) == NormalizeBy(tailOk, s)
  {
    StripWhitespaceAppend("+", s);
    assert StripWhitespace("+") == "+";
    assert Clean("+" + s) == StripWhitespace(s) == Clean(s);
  }

  // ---------------------------------------------------------------------------
  // `String.prototype.trim`, applied by the caller before normalising.

  /** Leading white space removed: the dropped prefix is all white space and
      what remains does not start with any. */
  function TrimStart(s: string): (r: string)
    ensures |r| <= |s| && r == s[|s| - |r|..]
    ensures AllWhitespace(s[..|s| - |r|])
    ensures r == [] || !IsWhitespace(r[0])
  {
    if s != [] && IsWhitespace(s[0]) then TrimStart(s[1..]) else s
  }

  /** Trailing white space removed: the dropped suffix is all white space and
      what remains does not end with any. */
  function TrimEnd(s: string): (r: string)
    ensures |r| <= |s| && r == s[..|r|]
    ensures AllWhitespace(s[|r|..])
    ensures r == [] || !IsWhitespace(r[|r| - 1])
  {
    if s != [] && IsWhitespace(s[|s| - 1]) then TrimEnd(s[..|s| - 1]) else s
  }

  /** A suffix of a prefix is a slice, with the dropped ends kept blank. */
  lemma TrimSlice(s: string, t: string, r: string)
    requires |t| <= |s| && t == s[|s| - |t|..] && AllWhitespace(s[..|s| - |t|])
    requires |r| <= |t| && r == t[..|r|] && AllWhitespace(t[|r|..])
    ensures var k := |s| - |t|;
            && 0 <= k <= |s| - |r| && r == s[k..k + |r|]
            && AllWhitespace(s[..k]) && AllWhitespace(s[k + |r|..])
  {
    var k := |s| - |t|;
    assert s[k + |r|..] == t[|r|..];
  }

  /** `phone.trim()`: the result is a slice of the input with only white
      space around it, and it neither starts nor ends with white space. */
  function Trim(s: string): (r: string)
    ensures exists k :: 0 <= k <= |s| - |r| && r == s[k..k + |r|]
                        && AllWhitespace(s[..k]) && AllWhitespace(s[k + |r|..])
    ensures r == [] || (!IsWhitespace(r[0]) && !IsWhitespace(r[|r| - 1]))
  {
    var t := TrimStart(s);
    var r := TrimEnd(t);
    TrimSlice(s, t, r);
    r
  }

  lemma {:induction false} StripWhitespaceTrimStart(s: string)
    ensures StripWhitespace(TrimStart(s)) == StripWhitespace(s)
  {
    if s != [] && IsWhitespace(s[0]) {
      StripWhitespaceTrimStart(s[1..]);
    }
  }

  lemma {:induction false} StripWhitespaceTrimEnd(s: string)
    ensures StripWhitespace(TrimEnd(s)) == StripWhitespace(s)
  {
    if s != [] && IsWhitespace(s[|s| - 1]) {
      var init := s[..|s| - 1];
      assert s == init + [s[|s| - 1]];
      StripWhitespaceAppend(init, [s[|s| - 1]]);
      StripWhitespaceTrimEnd(init);
    }
  }

  /** Trimming only removes characters that are stripped anyway. */
  lemma StripWhitespaceTrim(s: string)
    ensures StripWhitespace(Trim(s)) == StripWhitespace(s)
  {
    StripWhitespaceTrimStart(s);
    StripWhitespaceTrimEnd(TrimStart(s));
  }

  /** `normalizePhone(phone.trim())` is `normalizePhone(phone)`. */
  lemma TrimInvisible(tailOk: string -> bool, s: string)
    ensures NormalizeBy(tailOk, Trim(s)) == NormalizeBy(tailOk, s)
  {
    StripWhitespaceTrim(s);
    assert Clean(Trim(s)) == Clean(s);
  }

  // ---------------------------------------------------------------------------
  // The tail check as written and as intended.

  /** The tail `\\d{8}` of a regular-expression LITERAL accepts: one backslash
      followed by eight letters `d`. */
  predicate TailOk(t: string)
    ensures TailOk(t) ==> |t| == 9 && !IsDigit(t[0])
  {
    t == "\\" + "dddddddd"
  }

  predicate IsDigit(c: char) {
    '0' <= c <= '9'
  }

  /** The tail `\d{8}` the sibling screen uses: exactly eight decimal digits. */
  predicate EightDigits(t: string) {
    |t| == 8 && forall i :: 0 <= i < |t| ==> IsDigit(t[i])
  }

  /** `normalizePhone` as it stands in the airtime screen: it can only ever
      return one of two strings, neither of them a phone number. */
  function Normalize(input: string): (r: Option<string>)
    ensures r.Some? ==> r.value == "2547\\dddddddd" || r.value == "2541\\dddddddd"
  {
    var n := NormalizeBy(TailOk, input);
    assert n.Some? ==> n.value == n.value[..4] + n.value[4..];
    n
  }

  /** `normalizePhone` with digit tails, as its comment, its input placeholder and its
      invalid-phone alert describe. */
  function NormalizeIntended(input: string): (r: Option<string>)
    ensures r.Some? ==> |r.value| == 12 && r.value[..3] == "254"
    ensures r.Some? ==> forall i :: 0 <= i < |r.value| ==> IsDigit(r.value[i])
  {
    var n := NormalizeBy(EightDigits, input);
    assert n.Some? ==> n.value == n.value[..4] + n.value[4..];
    n
  }

  /** Digits are never white space, so a digit string is its own cleaned form. */
  lemma DigitsAreClean(s: string)
    requires forall i :: 0 <= i < |s| ==> IsDigit(s[i])
    ensures StripWhitespace(s) == s
    ensures Clean(s) == s
  {
    assert NoWhitespace(s);
  }

  /** As written, NO all-digit number is accepted, in either form: a local
      number has an eight-digit tail where the pattern wants nine characters
      starting with a backslash, and so does a canonical one. */
  lemma AsWrittenRejectsDigits(lead: char, d: string)
    requires lead == '7' || lead == '1'
    requires EightDigits(d)
    ensures Normalize(['0', lead] + d) == None
    ensures Normalize("254" + [lead] + d) == None
  {
    var local := ['0', lead] + d;
    DigitsAreClean(local);
    assert local[2..] == d;
    assert local[..3][0] == '0';
    var canon := "254" + [lead] + d;
    DigitsAreClean(canon);
    assert canon[4..] == d;
  }

  /** As written, a backslash followed by eight letters `d` passes the local
      pattern and is rewritten like a number. */
  lemma AsWrittenAcceptsLetterTail(lead: char)
    requires lead == '7' || lead == '1'
    ensures Normalize(['0', lead] + "\\dddddddd") == Some("254" + [lead] + "\\dddddddd")
  {
    var tail := "\\dddddddd";
    var q := ['0', lead] + tail;
    assert NoWhitespace(q) by {
      assert forall i :: 0 <= i < |tail| ==> tail[i] == '\\' || tail[i] == 'd';
    }
    assert Clean(q) == q;
    assert q[2..] == tail;
    assert "254" + q[1..] == "254" + [lead] + tail;
  }

  lemma IntendedLocalDigits(lead: char, d: string)
    requires lead == '7' || lead == '1'
    requires EightDigits(d)
    ensures NormalizeIntended(['0', lead] + d) == Some("254" + [lead] + d)
  {
    var local := ['0', lead] + d;
    DigitsAreClean(local);
    assert local[2..] == d;
    assert LocalBy(EightDigits, local);
    assert "254" + local[1..] == "254" + [lead] + d;
  }

  lemma IntendedCanonicalDigits(lead: char, d: string)
    requires lead == '7' || lead == '1'
    requires EightDigits(d)
    ensures NormalizeIntended("+254" + [lead] + d) == Some("254" + [lead] + d)
  {
    var canon := "254" + [lead] + d;
    DigitsAreClean(canon);
    assert canon[..3] == "254" && canon[4..] == d;
    assert CanonicalBy(EightDigits, canon);
    NormalizeIgnoresPlus(EightDigits, canon);
    assert "+" + canon == "+254" + [lead] + d;
  }

  /** With digit tails, every local number `0` + `7`/`1` + eight digits is
      rewritten to `254` + the last nine digits, and the canonical form with
      a leading `+` comes back without it. */
  lemma IntendedAcceptsDigits(lead: char, d: string)
    requires lead == '7' || lead == '1'
    requires EightDigits(d)
    ensures NormalizeIntended(['0', lead] + d) == Some("254" + [lead] + d)
    ensures NormalizeIntended("+254" + [lead] + d) == Some("254" + [lead] + d)
  {
    IntendedLocalDigits(lead, d);
    IntendedCanonicalDigits(lead, d);
  }

  /** With digit tails, only cleaned strings of ten (local) or twelve
      (canonical) characters are accepted. */
  lemma IntendedLengths(input: string)
    ensures NormalizeIntended(input).Some? ==> |Clean(input)| == 10 || |Clean(input)| == 12
  {
  }
}
