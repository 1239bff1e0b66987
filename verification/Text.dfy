/** Delimited text and printed money: the pieces the hash payload and the export files are made of. */
module Text {
  import opened Database

  /** sep.join(parts) */
  function Join(sep: char, parts: seq<string>): string {
    if |parts| == 0 then "" else if |parts| == 1 then parts[0]
    else parts[0] + [sep] + Join(sep, parts[1..])
  }

  /** s.split(sep) */
  function Split(sep: char, s: string): (r: seq<string>)
    ensures |r| > 0 && forall p :: p in r ==> sep !in p
  {
    if s == "" then [""] else
      var r := Split(sep, s[1..]);
      if s[0] == sep then [""] + r else [[s[0]] + r[0]] + r[1..]
  }

  lemma {:induction false} SplitPiece(sep: char, piece: string, rest: string)
    requires sep !in piece
    ensures Split(sep, piece + [sep] + rest) == [piece] + Split(sep, rest)
    decreases |piece|
  {
    var s := piece + [sep] + rest;
    if piece == "" {
      assert s[1..] == rest;
    } else {
      assert s[1..] == piece[1..] + [sep] + rest;
      SplitPiece(sep, piece[1..], rest);
      assert s[0] == piece[0] && piece[0] in piece;
      assert [piece[0]] + piece[1..] == piece;
    }
  }

  lemma {:induction false} SplitWhole(sep: char, piece: string)
    requires sep !in piece
    ensures Split(sep, piece) == [piece]
  {
    if piece != "" {
      SplitWhole(sep, piece[1..]);
      assert piece[0] in piece && [piece[0]] + piece[1..] == piece;
    }
  }

  lemma {:induction false} SplitOfJoin(sep: char, parts: seq<string>)
    requires |parts| > 0 && forall p :: p in parts ==> sep !in p
    ensures Split(sep, Join(sep, parts)) == parts
  {
    if |parts| == 1 {
      SplitWhole(sep, parts[0]);
    } else {
      SplitPiece(sep, parts[0], Join(sep, parts[1..]));
      SplitOfJoin(sep, parts[1..]);
    }
  }

  lemma {:induction false} SplitAtSeparator(sep: char, a: string, b: string)
    ensures Split(sep, a + [sep] + b) == Split(sep, a) + Split(sep, b)
    decreases |a|
  {
    var s := a + [sep] + b;
    if a == "" {
      assert s[1..] == b;
    } else {
      assert s[1..] == a[1..] + [sep] + b;
      SplitAtSeparator(sep, a[1..], b);
    }
  }

  /** Joined text has a field for every piece, and no more exactly when no piece holds the separator. */
  lemma {:induction false} FieldsOfJoin(sep: char, parts: seq<string>)
    requires |parts| > 0
    ensures |Split(sep, Join(sep, parts))| >= |parts|
    ensures |Split(sep, Join(sep, parts))| == |parts| ==> forall p :: p in parts ==> sep !in p
  {
    JoinOfSplit(sep, parts[0]);
    if |parts| > 1 {
      SplitAtSeparator(sep, parts[0], Join(sep, parts[1..]));
      FieldsOfJoin(sep, parts[1..]);
    }
  }

  lemma {:induction false} JoinOfSplit(sep: char, s: string)
    ensures Join(sep, Split(sep, s)) == s
  {
    if s != "" {
      var r := Split(sep, s[1..]);
      JoinOfSplit(sep, s[1..]);
      assert s == [s[0]] + s[1..];
      if s[0] == sep {
        assert ([""] + r)[1..] == r;
      } else {
        assert ([[s[0]] + r[0]] + r[1..])[1..] == r[1..];
      }
    }
  }

  lemma {:induction false} JoinConcat(sep: char, a: seq<string>, b: seq<string>)
    requires |a| > 0 && |b| > 0
    ensures Join(sep, a + b) == Join(sep, a) + [sep] + Join(sep, b)
  {
    if |a| == 1 {
      assert (a + b)[1..] == b;
    } else {
      assert (a + b)[1..] == a[1..] + b;
      JoinConcat(sep, a[1..], b);
    }
  }

  /** Splitting gives the joined pieces back exactly when no piece holds the separator. */
  lemma SplitOfJoinIff(sep: char, parts: seq<string>)
    requires |parts| > 0
    ensures Split(sep, Join(sep, parts)) == parts <==> forall p :: p in parts ==> sep !in p
  {
    if forall p :: p in parts ==> sep !in p {
      SplitOfJoin(sep, parts);
    }
  }

  /** Splitting brings no new characters. */
  lemma {:induction false} SplitKeepsOut(c: char, sep: char, s: string)
    requires c !in s
    ensures forall f :: f in Split(sep, s) ==> c !in f
  {
    if s != "" {
      SplitKeepsOut(c, sep, s[1..]);
      var r := Split(sep, s[1..]);
      assert r[0] in r && forall f :: f in r[1..] ==> f in r;
      assert s[0] in s;
    }
  }

  lemma {:induction false} JoinWithout(c: char, sep: char, parts: seq<string>)
    requires c != sep && forall p :: p in parts ==> c !in p
    ensures c !in Join(sep, parts)
  {
    if |parts| > 1 {
      JoinWithout(c, sep, parts[1..]);
    }
  }

  /** s.replace(c, " ") for a one-character c. */
  function Blank(c: char, s: string): (r: string)
    requires c != ' '
    ensures |r| == |s| && c !in r
    ensures forall i :: 0 <= i < |s| ==> r[i] == (if s[i] == c then ' ' else s[i])
  {
    if s == "" then "" else [if s[0] == c then ' ' else s[0]] + Blank(c, s[1..])
  }

  // Decimal digits

  function Digit(d: nat): (c: char)
    requires d < 10
    ensures '0' <= c <= '9' && c as int == '0' as int + d
  {
    ('0' as int + d) as char
  }

  predicate IsDigit(c: char) { '0' <= c <= '9' }

  predicate AllDigits(s: string) { forall i :: 0 <= i < |s| ==> IsDigit(s[i]) }

  /** str(n) */
  function Digits(n: nat): (s: string)
    ensures |s| > 0 && AllDigits(s)
  {
    if n < 10 then [Digit(n)] else Digits(n / 10) + [Digit(n % 10)]
  }

  /** int(s) on digits. */
  function Value(s: string): nat
    requires AllDigits(s)
  {
    if s == "" then 0 else 10 * Value(s[..|s| - 1]) + (s[|s| - 1] as int - '0' as int)
  }

  lemma {:induction false} ValueOfDigits(n: nat)
    ensures Value(Digits(n)) == n
  {
    if n >= 10 {
      ValueOfDigits(n / 10);
      assert Digits(n)[..|Digits(n)| - 1] == Digits(n / 10);
    } else {
      assert Digits(n)[..0] == "";
    }
  }

  // Money

  function FormatUnsigned(cents: nat): string {
    Digits(cents / 100) + "." + [Digit(cents % 100 / 10), Digit(cents % 10)]
  }

  /** f"{cents / 100:.2f}" */
  function FormatMoney(cents: int): string {
    if cents < 0 then "-" + FormatUnsigned(-cents) else FormatUnsigned(cents)
  }

  /** The cents an amount with two decimals stands for; None when the text is not such an amount. */
  function ParseMoney(s: string): Option<int> {
    if |s| > 0 && s[0] == '-' then
      var r := ParseUnsigned(s[1..]);
      if r.Some? then Some(-r.value) else None
    else ParseUnsigned(s)
  }

  function ParseUnsigned(s: string): Option<int> {
    var n := |s|;
    if n < 4 || s[n - 3] != '.' || !AllDigits(s[..n - 3]) || !AllDigits(s[n - 2..]) then None
    else Some(100 * Value(s[..n - 3]) + Value(s[n - 2..]))
  }

  lemma UnsignedRoundTrip(cents: nat)
    ensures ParseUnsigned(FormatUnsigned(cents)) == Some(cents)
    ensures IsDigit(FormatUnsigned(cents)[0])
  {
    var d, tens, units := Digits(cents / 100), cents % 100 / 10, cents % 10;
    var s := FormatUnsigned(cents);
    assert s[..|s| - 3] == d && s[|s| - 2..] == [Digit(tens), Digit(units)];
    ValueOfDigits(cents / 100);
    TwoDigits(tens, units);
  }

  /** Printed money reads back as the same cents, for every integer. */
  lemma MoneyRoundTrip(cents: int)
    ensures ParseMoney(FormatMoney(cents)) == Some(cents)
  {
    if cents < 0 {
      UnsignedRoundTrip(-cents);
      assert FormatMoney(cents)[1..] == FormatUnsigned(-cents);
    } else {
      UnsignedRoundTrip(cents);
    }
  }

  lemma {:induction false} NoLeadingZero(n: nat)
    ensures |Digits(n)| > 1 ==> Digits(n)[0] != '0'
  {
    if n >= 10 { NoLeadingZero(n / 10); }
  }

  /** The shape of printed money: a sign for debts, the units without leading zeros, a point, and two decimals. */
  ghost predicate MoneyParts(cents: int, text: string, units: string, decimals: string) {
    text == (if cents < 0 then "-" else "") + units + "." + decimals
    && AllDigits(units) && AllDigits(decimals) && |decimals| == 2 && units != "" && (|units| > 1 ==> units[0] != '0')
    && 100 * Value(units) + Value(decimals) == if cents < 0 then -cents else cents
  }

  lemma TwoDigits(tens: nat, units: nat)
    requires tens < 10 && units < 10
    ensures Value([Digit(tens), Digit(units)]) == 10 * tens + units
  {
    var c := [Digit(tens), Digit(units)];
    assert c[..1] == [Digit(tens)] && [Digit(tens)][..0] == "";
    assert Value([Digit(tens)]) == tens;
  }

  lemma UnsignedParts(cents: nat) returns (units: string, decimals: string)
    ensures FormatUnsigned(cents) == units + "." + decimals
    ensures MoneyParts(cents, units + "." + decimals, units, decimals)
  {
    var tens, last := cents % 100 / 10, cents % 10;
    units, decimals := Digits(cents / 100), [Digit(tens), Digit(last)];
    NoLeadingZero(cents / 100);
    ValueOfDigits(cents / 100);
    TwoDigits(tens, last);
    assert "" + units + "." + decimals == units + "." + decimals;
  }

  lemma MoneyReads(cents: int)
    ensures exists units, decimals :: MoneyParts(cents, FormatMoney(cents), units, decimals)
  {
    var units, decimals := UnsignedParts(if cents < 0 then -cents else cents);
    if cents < 0 {
      assert "-" + (units + "." + decimals) == "-" + units + "." + decimals;
    }
    assert MoneyParts(cents, FormatMoney(cents), units, decimals);
  }

  lemma MoneyExamples()
    ensures FormatMoney(5) == "0.05" && FormatMoney(-1250) == "-12.50"
  {
    assert Digits(12) == Digits(1) + "2";
  }

  predicate IsMoneyChar(c: char) { IsDigit(c) || c == '-' || c == '.' }

  lemma MoneyChars(cents: int)
    ensures forall c :: c in FormatMoney(cents) ==> IsMoneyChar(c)
  {
  }
}
