/**
 * Phone-number normalisation on contacts (`res.partner`): the stored
 * `normalized_phone` / `normalized_mobile` fields the webhook matches
 * senders against.
 */
module Phone {
  import opened Wrappers
  import opened Text
  import opened Records

  /**
   * The phone-number library's parse-then-format-as-E.164 step, given as a
   * table: the digit strings it can parse, each with its E.164 form. A
   * string outside the table stands for a parse exception.
   */
  type Formatter = map<string, string>

  predicate IsDialChar(c: char)
  {
    IsDigit(c) || c == '+'
  }

  predicate DialString(s: string)
  {
    forall i | 0 <= i < |s| :: IsDialChar(s[i])
  }

  /** Keeps the digits and plus signs of a raw number, in order. */
  function KeepDialChars(s: string): (r: string)
    ensures DialString(r) && |r| <= |s|
  {
    if s == [] then []
    else if IsDialChar(s[0]) then [s[0]] + KeepDialChars(s[1..])
    else KeepDialChars(s[1..])
  }

  predicate AllDigits(s: string)
  {
    forall i | 0 <= i < |s| :: IsDigit(s[i])
  }

  /** Keeps the digits only. */
  function DigitsOf(s: string): (r: string)
    ensures AllDigits(r)
    ensures |r| <= |s|
  {
    if s == [] then []
    else if IsDigit(s[0]) then [s[0]] + DigitsOf(s[1..])
    else DigitsOf(s[1..])
  }

  /**
   * Both filters work piece by piece; with the one-character case below,
   * each keeps exactly the characters it accepts, in order.
   */
  lemma {:induction false} KeepDialCharsConcat(a: string, b: string)
    ensures KeepDialChars(a + b) == KeepDialChars(a) + KeepDialChars(b)
  {
    if a == [] {
      assert a + b == b;
    } else {
      var x, t := a[0], a[1..];
      ConsSplit(a, b);
      KeepDialCharsCons(x, t + b);
      KeepDialCharsCons(x, t);
      KeepDialCharsConcat(t, b);
      Associative(if IsDialChar(x) then [x] else [], KeepDialChars(t), KeepDialChars(b));
    }
  }

  lemma KeepDialCharsCons(x: char, s: string)
    ensures KeepDialChars([x] + s) == (if IsDialChar(x) then [x] else []) + KeepDialChars(s)
  {
    var t := [x] + s;
    assert t[0] == x && t[1..] == s;
  }

  lemma {:induction false} DigitsOfConcat(a: string, b: string)
    ensures DigitsOf(a + b) == DigitsOf(a) + DigitsOf(b)
  {
    if a == [] {
      assert a + b == b;
    } else {
      var x, t := a[0], a[1..];
      ConsSplit(a, b);
      DigitsOfCons(x, t + b);
      DigitsOfCons(x, t);
      DigitsOfConcat(t, b);
      Associative(if IsDigit(x) then [x] else [], DigitsOf(t), DigitsOf(b));
    }
  }

  lemma DigitsOfCons(x: char, s: string)
    ensures DigitsOf([x] + s) == (if IsDigit(x) then [x] else []) + DigitsOf(s)
  {
    var t := [x] + s;
    assert t[0] == x && t[1..] == s;
  }

  /** A digit or plus sign is kept as a dial character; only a digit is kept as a digit. */
  lemma FiltersOne(x: char)
    ensures KeepDialChars([x]) == (if IsDialChar(x) then [x] else [])
    ensures DigitsOf([x]) == (if IsDigit(x) then [x] else [])
  {
    assert [x][1..] == [];
  }

  lemma {:induction false} LStripKeepsDialString(s: string, c: char)
    requires DialString(s)
    ensures DialString(LStrip(s, c))
  {
    if s != [] && s[0] == c {
      LStripKeepsDialString(s[1..], c);
    }
  }

  /** A leading `00` international prefix is dropped. */
  function DropDoubleZero(s: string): string
  {
    if StartsWith(s, "00") then s[2..] else s
  }

  /**
   * The cleaning steps in their order: keep dial characters, drop a `00`
   * prefix, strip leading zeros, then strip leading plus signs.
   */
  function Clean(raw: string): (r: string)
    ensures DialString(r)
    ensures r == [] || r[0] != '+'
  {
    var kept := KeepDialChars(raw);
    var noPrefix := DropDoubleZero(kept);
    var noTrunk := LStrip(noPrefix, '0');
    LStripKeepsDialString(noPrefix, '0');
    LStripKeepsDialString(noTrunk, '+');
    LStrip(noTrunk, '+')
  }

  /**
   * What cleaning removes: after the dial characters are kept and a `00`
   * prefix dropped, a run of zeros followed by a run of plus signs; the
   * rest is kept as it was. When only zeros go, what remains does not start
   * with a zero.
   */
  lemma CleanStrips(raw: string)
    ensures var d := DropDoubleZero(KeepDialChars(raw)); var r := Clean(raw);
            && |r| <= |d| && r == d[|d| - |r|..]
            && (forall i | 0 <= i < |d| - |r| :: d[i] == '0' || d[i] == '+')
            && (forall i, j | 0 <= i < j < |d| - |r| && d[i] == '+' :: d[j] == '+')
            && ((forall i | 0 <= i < |d| - |r| :: d[i] == '0') ==> r == [] || r[0] != '0')
  {
    StripsZerosThenPluses(DropDoubleZero(KeepDialChars(raw)));
  }

  /**
   * Stripping leading zeros and then leading plus signs removes a run of
   * zeros followed by a run of plus signs; when only zeros go, what remains
   * does not start with a zero.
   */
  lemma StripsZerosThenPluses(d: string)
    ensures var t := LStrip(d, '0'); var r := LStrip(t, '+');
            && |r| <= |d| && r == d[|d| - |r|..]
            && (forall i | 0 <= i < |d| - |r| :: d[i] == '0' || d[i] == '+')
            && (forall i, j | 0 <= i < j < |d| - |r| && d[i] == '+' :: d[j] == '+')
            && ((forall i | 0 <= i < |d| - |r| :: d[i] == '0') ==> r == [] || r[0] != '0')
  {
    var t := LStrip(d, '0');
    var r := LStrip(t, '+');
    LStripRemovesPrefix(d, '0');
    LStripRemovesPrefix(t, '+');
    var z := |d| - |t|;
    assert forall i | z <= i < |d| - |r| :: d[i] == t[i - z] == '+';
    if |t| > |r| {
      assert d[z] == t[0] == '+';
    }
  }

  /**
   * `normalize_phone_number`: the E.164 form of the cleaned digits when the
   * library can format them, the cleaned string itself when it cannot.
   */
  function Normalize(raw: string, e164: Formatter): (r: string)
    ensures DigitsOf(Clean(raw)) in e164 ==> r == e164[DigitsOf(Clean(raw))]
    ensures DigitsOf(Clean(raw)) !in e164 ==> r == Clean(raw)
  {
    var cleaned := Clean(raw);
    var digits := DigitsOf(cleaned);
    if digits in e164 then e164[digits] else cleaned
  }

  /**
   * The library's parse as the source calls it: without a default region,
   * on a string from which every plus sign is gone. The library refuses a
   * number that has neither, so no digit string is parsed.
   */
  const UnparsedWithoutRegion: Formatter := map[]

  /** `normalize_phone_number` as written: it always returns the cleaned string. */
  function NormalizeAsWritten(raw: string): (r: string)
    ensures r == Clean(raw)
    ensures r == [] || r[0] != '+'
  {
    Normalize(raw, UnparsedWithoutRegion)
  }

  /**
   * A number the library can format comes out in E.164 form only when it is
   * parsed as an international number; as written it stays the bare digits.
   */
  lemma NormalizeAsWrittenMissesE164()
    ensures var digits := "442079460000"; var e164 := map[digits := "+" + digits];
            && Normalize("+" + digits, e164) == "+" + digits
            && NormalizeAsWritten("+" + digits) == digits
  {
    var digits := "442079460000";
    InternationalDigits();
    CleanDropsPlus(digits);
    DigitsOfAllDigits(digits);
  }

  lemma InternationalDigits()
    ensures AllDigits("442079460000") && "442079460000"[0] != '0'
  {
  }

  /** On a string of digits only, the digit filter keeps everything. */
  lemma {:induction false} DigitsOfAllDigits(s: string)
    requires AllDigits(s)
    ensures DigitsOf(s) == s
  {
    if s != [] {
      DigitsOfAllDigits(s[1..]);
      assert s == [s[0]] + s[1..];
    }
  }

  /** Cleaning an international number drops its plus sign and keeps its digits. */
  lemma CleanDropsPlus(d: string)
    requires AllDigits(d) && d != [] && d[0] != '0'
    ensures Clean("+" + d) == d
  {
    var raw := "+" + d;
    assert raw[0] == '+' && raw[1..] == d;
    assert DialString(raw) by {
      forall i | 0 <= i < |raw| ensures IsDialChar(raw[i]) {
        if i > 0 { assert raw[i] == d[i - 1]; }
      }
    }
    KeepDialCharsOfDialString(raw);
    assert !StartsWith(raw, "00") by { assert raw[..2][0] == '+'; }
    assert LStrip(raw, '0') == raw;
    assert LStrip(raw, '+') == LStrip(d, '+') == d;
  }

  /** The stored computed field: empty when the source field is empty. */
  function NormalizedField(field: Option<string>, e164: Formatter): (r: Option<string>)
    ensures r.None? <==> !Truthy(field)
    ensures r.Some? ==> r.value == Normalize(field.value, e164)
  {
    if Truthy(field) then Some(Normalize(field.value, e164)) else None
  }

  /** A contact whose stored normalized fields are computed from its phone and mobile. */
  function ContactWith(name: string, phone: Option<string>, mobile: Option<string>, e164: Formatter): (p: Partner)
    ensures p.name == name && p.phone == phone && p.mobile == mobile && Normalized(p, e164)
  {
    Partner(name, phone, mobile, NormalizedField(phone, e164), NormalizedField(mobile, e164))
  }

  /** The stored normalized fields agree with the phone and mobile they are computed from. */
  predicate Normalized(p: Partner, e164: Formatter)
  {
    p.normalizedPhone == NormalizedField(p.phone, e164) && p.normalizedMobile == NormalizedField(p.mobile, e164)
  }

  /** Writing a contact's phone recomputes its normalized phone. */
  function WithPhone(p: Partner, phone: Option<string>, e164: Formatter): (r: Partner)
    requires Normalized(p, e164)
    ensures Normalized(r, e164) && r.phone == phone && r.mobile == p.mobile && r.name == p.name
  {
    p.(phone := phone, normalizedPhone := NormalizedField(phone, e164))
  }

  lemma {:induction false} KeepDialCharsOfDialString(s: string)
    requires DialString(s)
    ensures KeepDialChars(s) == s
  {
    if s != [] {
      KeepDialCharsOfDialString(s[1..]);
      assert s == [s[0]] + s[1..];
    }
  }

  /**
   * Cleaning is idempotent on numbers whose cleaned form does not begin with
   * a zero.
   */
  lemma CleanIdempotent(raw: string)
    requires Clean(raw) == [] || Clean(raw)[0] != '0'
    ensures Clean(Clean(raw)) == Clean(raw)
  {
    var c := Clean(raw);
    KeepDialCharsOfDialString(c);
    assert !StartsWith(c, "00");
  }

  /**
   * It is not idempotent in general: a plus sign followed by a trunk zero
   * leaves the zero for a second pass to strip.
   */
  lemma CleanNotIdempotent()
    ensures Clean("+05") == "05"
    ensures Clean(Clean("+05")) == "5"
  {
    CleanPlusZero();
    CleanZero();
  }

  lemma CleanPlusZero()
    ensures Clean("+05") == "05"
  {
    var s, t := "+05", "05";
    assert s[1..] == t && t[1..] == "5" && t[1..][1..] == [];
    assert KeepDialChars(s) == s;
    assert !StartsWith(s, "00");
    assert LStrip(s, '0') == s;
    assert LStrip(s, '+') == t;
  }

  lemma CleanZero()
    ensures Clean("05") == "5"
  {
    var t, u := "05", "5";
    assert t[1..] == u && u[1..] == [];
    assert KeepDialChars(t) == t;
    assert !StartsWith(t, "00");
    assert LStrip(t, '0') == u;
    assert LStrip(u, '+') == u;
  }
}
