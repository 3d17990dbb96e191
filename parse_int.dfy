/** Base-10 integer parsing as `parseInt(score, 10)` does it for the score drafts:
    leading white space is skipped, an optional sign is read, then the longest run
    of decimal digits; anything after that run is ignored. No digits at all means
    NaN, modelled as `None`. */
module ParseInt {
  import opened Options

  predicate IsDigit(c: char) { '0' <= c <= '9' }

  /** The white space `parseInt` skips before the number (ASCII white space,
      no-break space, byte order mark, line and paragraph separators). */
  predicate IsSpace(c: char)
  {
    c == ' ' || c == '\t' || c == '\n' || c == '\r' || c == '\U{B}' || c == '\U{C}'
    || c == '\U{A0}' || c == '\U{FEFF}' || c == '\U{2028}' || c == '\U{2029}'
  }

  predicate AllDigits(s: string) { forall i :: 0 <= i < |s| ==> IsDigit(s[i]) }

  predicate AllSpaces(s: string) { forall i :: 0 <= i < |s| ==> IsSpace(s[i]) }

  /** `s` without its leading white space. */
  function TrimStart(s: string): (r: string)
    ensures |r| <= |s|
    ensures r == [] || !IsSpace(r[0])
  {
    if |s| > 0 && IsSpace(s[0]) then TrimStart(s[1..]) else s
  }

  lemma {:induction false} TrimStartIsSuffix(s: string)
    ensures TrimStart(s) == s[|s| - |TrimStart(s)|..]
  {
    if |s| > 0 && IsSpace(s[0]) {
      TrimStartIsSuffix(s[1..]);
    }
  }

  /** The longest prefix of `s` made of decimal digits. */
  function DigitPrefix(s: string): (r: string)
    ensures |r| <= |s| && r == s[..|r|]
    ensures AllDigits(r)
    ensures |r| == |s| || !IsDigit(s[|r|])
  {
    if |s| > 0 && IsDigit(s[0]) then [s[0]] + DigitPrefix(s[1..]) else []
  }

  function DigitValue(c: char): nat
    requires IsDigit(c)
  {
    (c as int) - ('0' as int)
  }

  /** The number a run of decimal digits denotes, most significant digit first. */
  function DigitsValue(ds: string): nat
    requires AllDigits(ds)
  {
    if ds == [] then 0 else DigitsValue(ds[..|ds| - 1]) * 10 + DigitValue(ds[|ds| - 1])
  }

  /** `parseInt(s, 10)`, with `None` for NaN. A number is only ever read from
      text that holds a decimal digit. */
  function Parse(s: string): (r: Option<int>)
    ensures r.Some? ==> exists i :: 0 <= i < |s| && IsDigit(s[i])
  {
    TrimStartIsSuffix(s);
    var t := TrimStart(s);
    var body := SignStripped(t);
    var ds := DigitPrefix(body);
    var magnitude: int := if ds == [] then 0 else DigitsValue(ds);
    if ds == [] then None
    else if |t| > 0 && t[0] == '-' then Some(-magnitude)
    else Some(magnitude)
  }

  /** `t` without one leading '+' or '-'. */
  function SignStripped(t: string): string
  {
    if |t| > 0 && (t[0] == '-' || t[0] == '+') then t[1..] else t
  }

  /** The draft-score coercion of `handleAddScores`: the parsed number, or 0 when
      the draft holds no number. */
  function ParseScore(s: string): (n: int)
    ensures Parse(s).None? ==> n == 0
    ensures n != 0 ==> Parse(s) == Some(n)
    ensures forall pad, sign, ds, rest :: Numeral(s, pad, sign, ds, rest) ==> n == NumeralValue(sign, ds)
    ensures (!exists pad, sign, ds, rest :: Numeral(s, pad, sign, ds, rest)) ==> n == 0
  {
    ParseReadsEveryNumeral(s);
    ParseCharacterized(s, 0);
    match Parse(s)
    case Some(n) => n
    case None => 0
  }

  /** The round `handleAddScores` builds from the draft scores, one entry per draft. */
  function ParseRow(drafts: seq<string>): (row: seq<int>)
    ensures |row| == |drafts|
  {
    seq(|drafts|, i requires 0 <= i < |drafts| => ParseScore(drafts[i]))
  }

  /** Each entry of the round is the value of its draft's numeral, or 0 when the
      draft is no numeral. */
  lemma ParseRowReadsDrafts(drafts: seq<string>)
    ensures forall i, pad, sign, ds, rest :: 0 <= i < |drafts| && Numeral(drafts[i], pad, sign, ds, rest) ==>
      ParseRow(drafts)[i] == NumeralValue(sign, ds)
    ensures forall i :: 0 <= i < |drafts| && (!exists pad, sign, ds, rest :: Numeral(drafts[i], pad, sign, ds, rest)) ==>
      ParseRow(drafts)[i] == 0
  {
  }

  // A decimal printer, the reference against which parsing is checked.

  function DigitChar(d: nat): (c: char)
    requires d < 10
    ensures IsDigit(c) && DigitValue(c) == d
  {
    ('0' as int + d) as char
  }

  /** The decimal digits of `n`, without leading zeros. */
  function ShowNat(n: nat): (s: string)
    ensures |s| > 0 && AllDigits(s)
  {
    if n < 10 then [DigitChar(n)] else ShowNat(n / 10) + [DigitChar(n % 10)]
  }

  /** The decimal text of `n` as a number input field holds it: a '-' before a negative number. */
  function Show(n: int): string
  {
    if n < 0 then "-" + ShowNat(-n) else ShowNat(n)
  }

  lemma {:induction false} DigitsValueShowNat(n: nat)
    ensures DigitsValue(ShowNat(n)) == n
  {
    var s := ShowNat(n);
    if n >= 10 {
      assert s[..|s| - 1] == ShowNat(n / 10);
      DigitsValueShowNat(n / 10);
    }
  }

  lemma {:induction false} DigitPrefixStops(ds: string, rest: string)
    requires AllDigits(ds)
    requires rest == [] || !IsDigit(rest[0])
    ensures DigitPrefix(ds + rest) == ds
  {
    if ds != [] {
      assert (ds + rest)[1..] == ds[1..] + rest;
      DigitPrefixStops(ds[1..], rest);
    }
  }

  lemma {:induction false} TrimStartSkipsPad(pad: string, t: string)
    requires AllSpaces(pad)
    requires t == [] || !IsSpace(t[0])
    ensures TrimStart(pad + t) == t
  {
    if pad != [] {
      assert (pad + t)[1..] == pad[1..] + t;
      TrimStartSkipsPad(pad[1..], t);
    }
  }

  /** What `TrimStart` drops is white space only. */
  lemma {:induction false} TrimStartSplit(s: string)
    ensures s == s[..|s| - |TrimStart(s)|] + TrimStart(s)
    ensures AllSpaces(s[..|s| - |TrimStart(s)|])
  {
    TrimStartIsSuffix(s);
    if |s| > 0 && IsSpace(s[0]) {
      TrimStartSplit(s[1..]);
      assert s[..|s| - |TrimStart(s)|] == [s[0]] + s[1..][..|s[1..]| - |TrimStart(s[1..])|];
    }
  }

  /** `s` is read by `parseInt` as white space `pad`, an optional `sign`, the
      decimal digits `ds` and ignored text `rest` that does not continue the digits. */
  ghost predicate Numeral(s: string, pad: string, sign: string, ds: string, rest: string)
  {
    && s == pad + sign + ds + rest
    && AllSpaces(pad)
    && (sign == "" || sign == "+" || sign == "-")
    && |ds| > 0 && AllDigits(ds)
    && (rest == [] || !IsDigit(rest[0]))
  }

  /** The number a sign and a run of digits denote. */
  function NumeralValue(sign: string, ds: string): int
    requires AllDigits(ds)
  {
    if sign == "-" then -(DigitsValue(ds) as int) else DigitsValue(ds)
  }

  lemma ParseNegative(s: string, u: string, ds: string, rest: string)
    requires |u| > 0 && TrimStart(s) == u && SignStripped(u) == ds + rest && u[0] == '-'
    requires |ds| > 0 && AllDigits(ds)
    requires rest == [] || !IsDigit(rest[0])
    ensures Parse(s) == Some(-(DigitsValue(ds) as int))
  {
    DigitPrefixStops(ds, rest);
  }

  lemma ParseNonNegative(s: string, u: string, ds: string, rest: string)
    requires |u| > 0 && TrimStart(s) == u && SignStripped(u) == ds + rest && u[0] != '-'
    requires |ds| > 0 && AllDigits(ds)
    requires rest == [] || !IsDigit(rest[0])
    ensures Parse(s) == Some(DigitsValue(ds))
  {
    DigitPrefixStops(ds, rest);
  }

  /** Every numeral is read as its value ("+5" is 5, "007" is 7, " -3x" is -3). */
  lemma ParseNumeral(s: string, pad: string, sign: string, ds: string, rest: string)
    requires Numeral(s, pad, sign, ds, rest)
    ensures Parse(s) == Some(NumeralValue(sign, ds))
  {
    var u := sign + (ds + rest);
    assert s == pad + u;
    assert |u| > 0 && !IsSpace(u[0]) by {
      if sign == "" {
        assert u == ds + rest && u[0] == ds[0];
      } else {
        assert u[0] == sign[0];
      }
    }
    TrimStartSkipsPad(pad, u);
    if sign == "-" {
      assert u[0] == '-' && SignStripped(u) == ds + rest;
      ParseNegative(s, u, ds, rest);
    } else if sign == "+" {
      assert u[0] == '+' && SignStripped(u) == ds + rest;
      ParseNonNegative(s, u, ds, rest);
    } else {
      assert u == ds + rest && IsDigit(u[0]);
      assert SignStripped(u) == ds + rest;
      ParseNonNegative(s, u, ds, rest);
    }
  }

  /** The sign `SignStripped` removes from `t`, if any. */
  function SignOf(t: string): (sign: string)
    ensures sign == "" || sign == "+" || sign == "-"
    ensures t == sign + SignStripped(t)
  {
    if |t| > 0 && (t[0] == '-' || t[0] == '+') then t[..1] else ""
  }

  lemma DigitSplit(body: string)
    ensures body == DigitPrefix(body) + body[|DigitPrefix(body)|..]
    ensures var rest := body[|DigitPrefix(body)|..]; rest == [] || !IsDigit(rest[0])
  {
    var ds := DigitPrefix(body);
    if |ds| < |body| {
      assert body[|ds|..][0] == body[|ds|];
    }
  }

  /** The value `Parse` reads, in terms of the parts of its input. */
  lemma ParseValue(s: string)
    requires Parse(s).Some?
    ensures AllDigits(DigitPrefix(SignStripped(TrimStart(s))))
    ensures Parse(s).value
         == NumeralValue(SignOf(TrimStart(s)), DigitPrefix(SignStripped(TrimStart(s))))
  {
  }

  /** Whatever `parseInt` reads a number from is a numeral of that value. */
  lemma ParseFindsNumeral(s: string)
    requires Parse(s).Some?
    ensures exists pad, sign, ds, rest ::
      Numeral(s, pad, sign, ds, rest) && Parse(s).value == NumeralValue(sign, ds)
  {
    var t := TrimStart(s);
    TrimStartSplit(s);
    var pad := s[..|s| - |t|];
    var sign := SignOf(t);
    var body := SignStripped(t);
    var ds := DigitPrefix(body);
    DigitSplit(body);
    var rest := body[|ds|..];
    ParseValue(s);
    NumeralFromParts(s, pad, t, sign, body, ds, rest);
    assert Numeral(s, pad, sign, ds, rest) && Parse(s).value == NumeralValue(sign, ds);
  }

  lemma NumeralFromParts(s: string, pad: string, t: string, sign: string, body: string, ds: string, rest: string)
    requires s == pad + t && t == sign + body && body == ds + rest
    requires AllSpaces(pad) && (sign == "" || sign == "+" || sign == "-")
    requires |ds| > 0 && AllDigits(ds) && (rest == [] || !IsDigit(rest[0]))
    ensures Numeral(s, pad, sign, ds, rest)
  {
    assert s == pad + sign + ds + rest;
  }

  /** Every numeral reading of `s` gives the number `parseInt` returns. */
  lemma ParseReadsEveryNumeral(s: string)
    ensures forall pad, sign, ds, rest :: Numeral(s, pad, sign, ds, rest) ==>
      Parse(s) == Some(NumeralValue(sign, ds))
  {
    forall pad, sign, ds, rest | Numeral(s, pad, sign, ds, rest)
      ensures Parse(s) == Some(NumeralValue(sign, ds))
    {
      ParseNumeral(s, pad, sign, ds, rest);
    }
  }

  /** `parseInt` yields `n` exactly for the numerals of value `n`, and NaN exactly
      for text that is no numeral ("abc5", "-", "+-5", ""). */
  lemma ParseCharacterized(s: string, n: int)
    ensures Parse(s) == Some(n) <==>
      exists pad, sign, ds, rest :: Numeral(s, pad, sign, ds, rest) && NumeralValue(sign, ds) == n
    ensures Parse(s) == None <==>
      !exists pad, sign, ds, rest :: Numeral(s, pad, sign, ds, rest)
  {
    if Parse(s).Some? {
      ParseFindsNumeral(s);
    }
    ParseReadsEveryNumeral(s);
  }

  /** Parsing reads back any printed integer, whatever white space precedes it and
      whatever non-digit text follows it ("12abc" reads as 12). */
  lemma ParseShow(pad: string, n: int, rest: string)
    requires AllSpaces(pad)
    requires rest == [] || !IsDigit(rest[0])
    ensures Parse(pad + Show(n) + rest) == Some(n)
  {
    var m: nat := if n < 0 then -n else n;
    var sign := if n < 0 then "-" else "";
    assert Show(n) == sign + ShowNat(m);
    assert pad + Show(n) + rest == pad + sign + ShowNat(m) + rest;
    ParseNumeral(pad + Show(n) + rest, pad, sign, ShowNat(m), rest);
    DigitsValueShowNat(m);
  }

  /** A draft with no decimal digit in it, the empty draft among them, is coerced to 0. */
  lemma NoDigitsIsZero(s: string)
    requires forall i :: 0 <= i < |s| ==> !IsDigit(s[i])
    ensures Parse(s) == None && ParseScore(s) == 0
  {
    var t := TrimStart(s);
    var body := SignStripped(t);
    TrimStartIsSuffix(s);
    assert body == s[|s| - |body|..];
    if |body| > 0 {
      assert body[0] == s[|s| - |body|];
    }
  }
}
