/**
 * The greeting that links the two ends of a new websocket: printed by the client (client/utils.go),
 * parsed by the server (server/server.go).
 */
module Greeting {
  import opened Types

  const SEPARATOR := '_'

  // ---- strconv and strings ----

  predicate IsDigit(c: char) { '0' <= c <= '9' }

  function Digit(d: nat): char
    requires d < 10
  {
    '0' + d as char
  }

  /** Decimal digits of a natural number, as "%d" prints them. */
  function PrintNat(n: nat): string {
    if n < 10 then [Digit(n)] else PrintNat(n / 10) + [Digit(n % 10)]
  }

  function PrintInt(n: int): string {
    if n < 0 then "-" + PrintNat(-n) else PrintNat(n)
  }

  predicate AllDigits(ds: string) { forall i :: 0 <= i < |ds| ==> IsDigit(ds[i]) }

  function Value(ds: string): nat
    requires AllDigits(ds)
  {
    if ds == [] then 0
    else
      assert IsDigit(ds[|ds| - 1]);
      10 * Value(ds[..|ds| - 1]) + (ds[|ds| - 1] as int - '0' as int)
  }

  predicate Signed(s: string) { s != [] && (s[0] == '-' || s[0] == '+') }

  function Unsigned(s: string): string { if Signed(s) then s[1..] else s }

  /** strconv.Atoi with 64-bit int: an optional sign, at least one digit, and a value in range. */
  function Atoi(s: string): Option<int> {
    var ds := Unsigned(s);
    if ds == [] || !AllDigits(ds) then None
    else
      var m: int := Value(ds);
      var v := if Signed(s) && s[0] == '-' then -m else m;
      if IsInt64(v) then Some(v) else None
  }

  /** strings.Split at the separator; there is always a first field. */
  function Split(s: string): (fields: seq<string>)
    ensures |fields| >= 1
  {
    if s == [] then [[]]
    else if s[0] == SEPARATOR then [[]] + Split(s[1..])
    else var rest := Split(s[1..]); [[s[0]] + rest[0]] + rest[1..]
  }

  function Join(fields: seq<string>): string
    requires |fields| >= 1
  {
    if |fields| == 1 then fields[0] else fields[0] + [SEPARATOR] + Join(fields[1..])
  }

  /** Split is the only way to cut a string into fields without separators that join to it again. */
  lemma {:induction false} SplitJoins(s: string)
    ensures Join(Split(s)) == s
    ensures forall i :: 0 <= i < |Split(s)| ==> SEPARATOR !in Split(s)[i]
    decreases |s|
  {
    if s != [] {
      SplitJoins(s[1..]);
      var rest := Split(s[1..]);
      if s[0] != SEPARATOR {
        var f := [s[0]] + rest[0];
        assert Split(s) == [f] + rest[1..];
        if |rest| > 1 {
          assert ([f] + rest[1..])[1..] == rest[1..];
          assert f + [SEPARATOR] + Join(rest[1..]) == [s[0]] + (rest[0] + [SEPARATOR] + Join(rest[1..]));
        }
      } else {
        assert Split(s) == [[]] + rest && ([[]] + rest)[1..] == rest;
      }
    }
  }

  lemma {:induction false} SplitField(a: string, b: string)
    requires SEPARATOR !in a
    ensures Split(a + [SEPARATOR] + b) == [a] + Split(b)
    decreases |a|
  {
    var s := a + [SEPARATOR] + b;
    if a == [] {
      assert s[1..] == b;
    } else {
      assert s[1..] == a[1..] + [SEPARATOR] + b;
      SplitField(a[1..], b);
      assert ([a[1..]] + Split(b))[1..] == Split(b);
      assert [a[0]] + a[1..] == a;
    }
  }

  lemma {:induction false} SplitWhole(a: string)
    requires SEPARATOR !in a
    ensures Split(a) == [a]
    decreases |a|
  {
    if a != [] {
      SplitWhole(a[1..]);
      assert [a[0]] + a[1..] == a;
    }
  }

  lemma {:induction false} PrintNatReads(n: nat)
    ensures var ds := PrintNat(n);
            && ds != [] && (forall i :: 0 <= i < |ds| ==> IsDigit(ds[i]))
            && Value(ds) == n
  {
    if n < 10 {
      assert PrintNat(n)[..0] == [];
    } else {
      PrintNatReads(n / 10);
      var ds := PrintNat(n);
      assert ds[..|ds| - 1] == PrintNat(n / 10);
    }
  }

  ghost predicate Digits(ds: string) { ds != [] && forall i :: 0 <= i < |ds| ==> '0' <= ds[i] <= '9' }

  /** s is the number v in decimal, with or without a sign. */
  ghost predicate Writes(s: string, ds: string, v: int) {
    && Digits(ds)
    && ((s == ds && v == Value(ds)) || (s == "+" + ds && v == Value(ds)) || (s == "-" + ds && v + Value(ds) == 0))
  }

  lemma AtoiWritten(s: string, v: int) returns (ds: string)
    requires Atoi(s) == Some(v)
    ensures IsInt64(v) && Writes(s, ds, v)
  {
    if s[0] == '-' {
      ds := s[1..];
      assert s == "-" + ds;
    } else if s[0] == '+' {
      ds := s[1..];
      assert s == "+" + ds;
    } else {
      ds := s;
    }
    assert AllDigits(ds);
    forall i | 0 <= i < |ds| ensures '0' <= ds[i] <= '9' {
      assert IsDigit(ds[i]);
    }
  }

  lemma AtoiReads(s: string, ds: string, v: int)
    requires IsInt64(v) && Writes(s, ds, v)
    ensures Atoi(s) == Some(v)
  {
    assert AllDigits(ds);
    if s == ds {
      assert IsDigit(s[0]);
    } else {
      assert s[1..] == ds;
    }
  }

  /** Exactly what Atoi accepts: digits, after a sign or not, whose value is in range. */
  lemma AtoiIff(s: string, v: int)
    ensures Atoi(s) == Some(v) <==> IsInt64(v) && exists ds :: Writes(s, ds, v)
  {
    if Atoi(s) == Some(v) {
      var ds := AtoiWritten(s, v);
    }
    if IsInt64(v) && exists ds :: Writes(s, ds, v) {
      var ds :| Writes(s, ds, v);
      AtoiReads(s, ds, v);
    }
  }

  /** Atoi reads back every int that "%d" prints, and no printed int contains the separator. */
  lemma AtoiPrintInt(n: int)
    requires IsInt64(n)
    ensures Atoi(PrintInt(n)) == Some(n)
    ensures SEPARATOR !in PrintInt(n)
  {
    var m: nat := if n < 0 then -n else n;
    var ds := PrintNat(m);
    PrintNatReads(m);
    assert Digits(ds) by {
      forall i | 0 <= i < |ds| ensures '0' <= ds[i] <= '9' {
        assert IsDigit(ds[i]);
      }
    }
    AtoiReads(PrintInt(n), ds, n);
    NoSeparator(ds);
  }

  lemma NoSeparator(ds: string)
    requires Digits(ds)
    ensures SEPARATOR !in ds && SEPARATOR !in "-" + ds
  {
  }

  /** The value of digits is that of the last one, and ten times that of the others. */
  lemma ValueAppend(ds: string, d: char)
    requires Digits(ds) && '0' <= d <= '9'
    ensures Digits([d]) && Digits(ds + [d])
    ensures Value([d]) == d as int - 48 && Value(ds + [d]) == 10 * Value(ds) + Value([d])
  {
    assert (ds + [d])[..|ds|] == ds && [d][..0] == [];
  }

  /** "%d" prints a sign only for a negative number, and no leading zero. */
  lemma {:induction false} PrintNatCanonical(n: nat)
    ensures Digits(PrintNat(n)) && (PrintNat(n)[0] == '0' <==> n == 0) && (n == 0 ==> PrintNat(n) == "0")
  {
    PrintNatReads(n);
    if n >= 10 {
      PrintNatCanonical(n / 10);
    }
  }

  // ---- The greeting ----

  function Code(k: Kind): int { if k == Read then 0 else 1 }

  /** The far end of a read connection writes, and the other way round. */
  function Peer(k: Kind): Kind { if k == Read then Write else Read }

  /** What the client sends for a connection of its own role k. */
  function Greet(idleSize: int, k: Kind): string {
    PrintInt(idleSize) + [SEPARATOR] + PrintInt(Code(Peer(k)))
  }

  /** A greeting without a second field makes the handler index past the end of the slice. */
  datatype Parsed = Parsed(idleSize: int, connectionType: int) | Malformed | Panics

  function Parse(greeting: string): Parsed {
    var split := Split(greeting);
    var idleSize := Atoi(split[0]);
    if idleSize == None then Malformed
    else if |split| < 2 then Panics
    else
      var connectionType := Atoi(split[1]);
      if connectionType == None then Malformed else Parsed(idleSize.value, connectionType.value)
  }

  /** Every greeting of the client is understood, and gives the two ends opposite roles. */
  lemma GreetingRoundTrip(idleSize: int, k: Kind)
    requires IsInt64(idleSize)
    ensures Parse(Greet(idleSize, k)) == Parsed(idleSize, Code(Peer(k)))
    ensures Peer(Peer(k)) == k && Peer(k) != k
  {
    AtoiPrintInt(idleSize);
    AtoiPrintInt(Code(Peer(k)));
    SplitField(PrintInt(idleSize), PrintInt(Code(Peer(k))));
    SplitWhole(PrintInt(Code(Peer(k))));
  }

  /** As text: what a client that wants ten idle connections sends on its read and on its write connections. */
  lemma GreetingText()
    ensures Greet(10, Read) == "10_1" && Greet(10, Write) == "10_0"
    ensures Parse("10_1") == Parsed(10, 1) && Parse("10_0") == Parsed(10, 0)
  {
    assert PrintNat(10) == PrintNat(1) + [Digit(0)] == "10";
    assert PrintInt(1) == "1" && PrintInt(0) == "0";
    assert Greet(10, Read) == "10" + "_" + "1" && Greet(10, Write) == "10" + "_" + "0";
    GreetingRoundTrip(10, Read);
    GreetingRoundTrip(10, Write);
  }

  /** The message is two fields, and anything after a second separator. */
  ghost predicate TwoFields(greeting: string, a: string, b: string, rest: string) {
    && SEPARATOR !in a && SEPARATOR !in b
    && (rest == [] || rest[0] == SEPARATOR)
    && greeting == a + [SEPARATOR] + (b + rest)
  }

  lemma TwoFieldsSplit(greeting: string, a: string, b: string, rest: string)
    requires TwoFields(greeting, a, b, rest)
    ensures |Split(greeting)| >= 2 && Split(greeting)[0] == a && Split(greeting)[1] == b
  {
    SplitField(a, b + rest);
    if rest == [] {
      assert b + rest == b;
      SplitWhole(b);
    } else {
      assert b + rest == b + [SEPARATOR] + rest[1..];
      SplitField(b, rest[1..]);
    }
  }

  lemma SplitTwoFields(greeting: string) returns (rest: string)
    requires |Split(greeting)| >= 2
    ensures TwoFields(greeting, Split(greeting)[0], Split(greeting)[1], rest)
  {
    var f := Split(greeting);
    SplitJoins(greeting);
    rest := if |f| == 2 then [] else [SEPARATOR] + Join(f[2..]);
    assert f[1..][1..] == f[2..];
    assert Join(f[1..]) == f[1] + rest;
  }

  /** Exactly which messages are understood. */
  lemma ParseAccepts(greeting: string, n: int, t: int)
    ensures Parse(greeting) == Parsed(n, t) <==>
            exists a, b, rest :: TwoFields(greeting, a, b, rest) && Atoi(a) == Some(n) && Atoi(b) == Some(t)
  {
    if Parse(greeting) == Parsed(n, t) {
      var rest := SplitTwoFields(greeting);
    }
    if exists a, b, rest :: TwoFields(greeting, a, b, rest) && Atoi(a) == Some(n) && Atoi(b) == Some(t) {
      var a, b, rest :| TwoFields(greeting, a, b, rest) && Atoi(a) == Some(n) && Atoi(b) == Some(t);
      TwoFieldsSplit(greeting, a, b, rest);
    }
  }

  /** Exactly which messages make the handler panic: one integer and no separator. */
  lemma ParsePanics(greeting: string)
    ensures Parse(greeting) == Panics <==> SEPARATOR !in greeting && Atoi(greeting) != None
  {
    SplitJoins(greeting);
    if SEPARATOR !in greeting {
      SplitWhole(greeting);
    } else {
      assert greeting != Split(greeting)[0];
    }
  }
}
