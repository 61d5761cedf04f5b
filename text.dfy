/** The string transforms the toolkit relies on: the `","` to `";"`
    rewrite (`strings.Replace(s, ",", ";", -1)`), decimal rendering and
    parsing of integers (`strconv.Itoa`, `strconv.Atoi`) and
    `strings.Join`. Strings are sequences of characters; the Go code works
    on bytes, which coincide with characters for the ASCII the rewrite and
    the number syntax touch. */
module Text {
  import opened Base

  // ---- comma rewrite ------------------------------------------------------

  /** Every `,` replaced by `;`, every other character kept in place. */
  function CommaToSemicolon(s: string): (r: string)
    ensures |r| == |s|
    ensures forall i :: 0 <= i < |s| ==> r[i] == (if s[i] == ',' then ';' else s[i])
    ensures ',' !in r
  {
    if s == [] then []
    else CommaToSemicolon(s[..|s| - 1]) + [if s[|s| - 1] == ',' then ';' else s[|s| - 1]]
  }

  /** A string without commas is left alone. */
  lemma {:induction false} CommaFreeUnchanged(s: string)
    requires ',' !in s
    ensures CommaToSemicolon(s) == s
  {
    if s != [] {
      CommaFreeUnchanged(s[..|s| - 1]);
    }
  }

  /** Rewriting twice is rewriting once. */
  lemma RewriteIdempotent(s: string)
    ensures CommaToSemicolon(CommaToSemicolon(s)) == CommaToSemicolon(s)
  {
    CommaFreeUnchanged(CommaToSemicolon(s));
  }

  // ---- decimal numbers ----------------------------------------------------

  predicate IsDigit(c: char) { '0' <= c <= '9' }

  predicate AllDigits(s: string) { forall i :: 0 <= i < |s| ==> IsDigit(s[i]) }

  /** The value of a string of decimal digits, most significant first. */
  function DecValue(s: string): (v: nat)
    requires AllDigits(s)
  {
    if s == [] then 0 else DecValue(s[..|s| - 1]) * 10 + (s[|s| - 1] - '0') as nat
  }

  /** The shortest decimal rendering of `n` (no sign, no leading zero). */
  function Digits(n: nat): (s: string)
    ensures |s| > 0 && AllDigits(s)
    ensures |s| > 1 ==> s[0] != '0'
  {
    if n < 10 then [('0' as int + n) as char]
    else Digits(n / 10) + [('0' as int + n % 10) as char]
  }

  lemma {:induction false} DecValueOfDigits(n: nat)
    ensures DecValue(Digits(n)) == n
  {
    var s := Digits(n);
    if n >= 10 {
      DecValueOfDigits(n / 10);
      assert s[..|s| - 1] == Digits(n / 10);
    }
  }

  /** `strconv.Itoa`. */
  function Itoa(n: int): (s: string)
    ensures |s| > 0
    ensures n < 0 <==> s[0] == '-'
  {
    if n < 0 then "-" + Digits(-n) else Digits(n)
  }

  /** `strconv.Atoi` on a 64-bit platform: an optional `+` or `-`, then
      one or more decimal digits (leading zeros allowed), whose value must
      lie in the int64 range. Everything else is an error. */
  function Atoi(s: string): (r: Result<int, Error>)
    ensures r.Failure? ==> r.error == NumError(s)
    ensures r.Success? ==> IsInt64(r.value)
    ensures r.Success? ==> |s| > 0 && (s[0] == '-' || s[0] == '+' || IsDigit(s[0]))
    ensures r.Success? && r.value < 0 ==> s[0] == '-'
  {
    if |s| == 0 then Failure(NumError(s))
    else
      var body := if s[0] == '-' || s[0] == '+' then s[1..] else s;
      if |body| == 0 || !AllDigits(body) then Failure(NumError(s))
      else
        var v: int := if s[0] == '-' then -(DecValue(body) as int) else DecValue(body);
        if IsInt64(v) then Success(v) else Failure(NumError(s))
  }

  /** Parsing the rendering of any int64 gives the number back. */
  lemma AtoiItoa(n: int)
    requires IsInt64(n)
    ensures Atoi(Itoa(n)) == Success(n)
  {
    var s := Itoa(n);
    if n < 0 {
      var d := Digits(-n);
      DecValueOfDigits(-n);
      assert s == "-" + d;
      assert s[1..] == d;
      assert s[0] == '-';
    } else {
      DecValueOfDigits(n);
      assert IsDigit(s[0]);
    }
  }

  /** What Atoi accepts: one or more digits, bare or after `+` or `-`,
      parse to their (signed) decimal value exactly when it fits int64,
      and fail with the NumError of the whole string otherwise. A sign
      alone, like the empty string, is an error. */
  lemma AtoiSignedDigits(d: string)
    requires |d| > 0 && AllDigits(d)
    ensures Atoi(d) == if IsInt64(DecValue(d)) then Success(DecValue(d)) else Failure(NumError(d))
    ensures Atoi("+" + d) == if IsInt64(DecValue(d)) then Success(DecValue(d)) else Failure(NumError("+" + d))
    ensures var v := -(DecValue(d) as int);
      Atoi("-" + d) == if IsInt64(v) then Success(v) else Failure(NumError("-" + d))
    ensures Atoi("") == Failure(NumError("")) && Atoi("+") == Failure(NumError("+")) && Atoi("-") == Failure(NumError("-"))
  {
    assert IsDigit(d[0]);
    var plus, minus := "+" + d, "-" + d;
    assert plus[0] == '+' && plus[1..] == d;
    assert minus[0] == '-' && minus[1..] == d;
    assert "+"[1..] == [] && "-"[1..] == [];
  }

  /** Past the optional sign, a single non-digit makes Atoi fail. */
  lemma AtoiRejectsNonDigit(s: string, i: nat)
    requires 0 < i < |s| && !IsDigit(s[i])
    ensures Atoi(s).Failure?
  {
    if s[0] == '-' || s[0] == '+' {
      assert s[1..][i - 1] == s[i];
    }
  }

  // ---- joining ------------------------------------------------------------

  /** `strings.Join(parts, sep)`. */
  function Join(parts: seq<string>, sep: string): string
  {
    if |parts| == 0 then ""
    else if |parts| == 1 then parts[0]
    else Join(parts[..|parts| - 1], sep) + sep + parts[|parts| - 1]
  }

  function TotalLength(parts: seq<string>): nat
  {
    if parts == [] then 0 else TotalLength(parts[..|parts| - 1]) + |parts[|parts| - 1]|
  }

  /** The joined string holds every part and one separator between
      neighbours, nothing more. */
  lemma {:induction false} JoinLength(parts: seq<string>, sep: string)
    requires |parts| > 0
    ensures |Join(parts, sep)| == TotalLength(parts) + (|parts| - 1) * |sep|
  {
    if |parts| > 1 {
      JoinLength(parts[..|parts| - 1], sep);
      assert parts[..|parts| - 1][..|parts| - 2] == parts[..|parts| - 2];
    } else {
      assert parts[..0] == [];
    }
  }

  /** The first part opens the joined string and the last one closes it. */
  lemma {:induction false} JoinEnds(parts: seq<string>, sep: string)
    requires |parts| > 0
    ensures parts[0] <= Join(parts, sep)
    ensures exists k :: 0 <= k <= |Join(parts, sep)| && Join(parts, sep)[k..] == parts[|parts| - 1]
  {
    var j := Join(parts, sep);
    if |parts| > 1 {
      var init := parts[..|parts| - 1];
      JoinEnds(init, sep);
      assert init[0] == parts[0];
      var k := |Join(init, sep) + sep|;
      assert j[k..] == parts[|parts| - 1];
    } else {
      assert j[0..] == parts[0];
    }
  }
}
