/** The bits of strconv, strings and regexp that the mapper relies on. */
module Texts {
  import opened Rpc

  // ----- decimal numbers

  function Digit(d: nat): char
    requires d < 10
  {
    ['0', '1', '2', '3', '4', '5', '6', '7', '8', '9'][d]
  }

  predicate IsDigit(c: char) {
    '0' <= c <= '9'
  }

  function DigitValue(c: char): (d: nat)
    requires IsDigit(c)
    ensures d < 10
  {
    (c as int) - ('0' as int)
  }

  predicate AllDigits(s: string) {
    forall i :: 0 <= i < |s| ==> IsDigit(s[i])
  }

  /** strconv.Itoa of a natural number. */
  function Itoa(n: nat): string {
    if n < 10 then [Digit(n)] else Itoa(n / 10) + [Digit(n % 10)]
  }

  function Decimal(s: string): nat
    requires AllDigits(s)
  {
    if s == "" then 0 else 10 * Decimal(s[..|s| - 1]) + DigitValue(s[|s| - 1])
  }

  /** big.Int.SetString in base 10: an optional sign and at least one digit. */
  function ParseInteger(s: string): Option<int> {
    if s != "" && (s[0] == '-' || s[0] == '+') then
      if 1 < |s| && AllDigits(s[1..]) then
        var n: int := Decimal(s[1..]);
        Some(if s[0] == '-' then -n else n)
      else None
    else if s != "" && AllDigits(s) then Some(Decimal(s))
    else None
  }

  /** Writing a number and reading it back gives the number. */
  lemma {:induction false} ItoaRoundTrip(n: nat)
    ensures Itoa(n) != "" && AllDigits(Itoa(n)) && Decimal(Itoa(n)) == n
    ensures ParseInteger(Itoa(n)) == Some(n)
  {
    if n < 10 {
      assert Itoa(n)[..0] == "";
    } else {
      ItoaRoundTrip(n / 10);
      var s := Itoa(n);
      assert s[..|s| - 1] == Itoa(n / 10);
    }
    assert IsDigit(Itoa(n)[0]);
  }

  /** A sign in front is read as one. */
  lemma SignedRoundTrip(n: nat)
    ensures ParseInteger("-" + Itoa(n)) == Some(-(n as int)) && ParseInteger("+" + Itoa(n)) == Some(n)
  {
    ItoaRoundTrip(n);
    var minus, plus := "-" + Itoa(n), "+" + Itoa(n);
    assert minus[1..] == Itoa(n) && plus[1..] == Itoa(n);
  }

  lemma ItoaInjective(a: nat, b: nat)
    requires Itoa(a) == Itoa(b)
    ensures a == b
  {
    ItoaRoundTrip(a);
    ItoaRoundTrip(b);
  }

  // ----- lower case, trimming, splitting

  /** No capital remains, and nothing but a capital changes. */
  function LowerChar(c: char): (r: char)
    ensures !('A' <= r <= 'Z')
    ensures if 'A' <= c <= 'Z' then (r as int) - ('a' as int) == (c as int) - ('A' as int) else r == c
  {
    if 'A' <= c <= 'Z' then ((c as int) + 32) as char else c
  }

  function Lower(s: string): (r: string)
    ensures |r| == |s| && forall i :: 0 <= i < |s| ==> r[i] == LowerChar(s[i])
  {
    seq(|s|, i requires 0 <= i < |s| => LowerChar(s[i]))
  }

  function TrimLeft(s: string): string {
    if s != "" && s[0] == ' ' then TrimLeft(s[1..]) else s
  }

  function TrimRight(s: string): string {
    if s != "" && s[|s| - 1] == ' ' then TrimRight(s[..|s| - 1]) else s
  }

  function Trim(s: string): string {
    TrimRight(TrimLeft(s))
  }

  function Blanks(n: nat): (s: string)
    ensures |s| == n && forall i :: 0 <= i < n ==> s[i] == ' '
  {
    seq(n, _ => ' ')
  }

  lemma {:induction false} TrimLeftIs(s: string) returns (a: nat)
    ensures s == Blanks(a) + TrimLeft(s)
    ensures TrimLeft(s) == "" || TrimLeft(s)[0] != ' '
  {
    if s != "" && s[0] == ' ' {
      var n := TrimLeftIs(s[1..]);
      a := n + 1;
      assert s == [s[0]] + s[1..];
      assert Blanks(n + 1) == [' '] + Blanks(n);
    } else {
      a := 0;
    }
  }

  lemma {:induction false} TrimRightIs(s: string) returns (b: nat)
    ensures s == TrimRight(s) + Blanks(b)
    ensures TrimRight(s) == "" || TrimRight(s)[|TrimRight(s)| - 1] != ' '
    ensures TrimRight(s) != "" ==> TrimRight(s)[0] == s[0]
  {
    if s != "" && s[|s| - 1] == ' ' {
      var n := TrimRightIs(s[..|s| - 1]);
      b := n + 1;
      assert s == s[..|s| - 1] + [' '];
      assert Blanks(n + 1) == Blanks(n) + [' '];
    } else {
      b := 0;
    }
  }

  /** Trimming takes blanks off both ends, and no more than those: what is left neither begins nor ends with one. */
  lemma TrimIs(s: string) returns (a: nat, b: nat)
    ensures s == Blanks(a) + Trim(s) + Blanks(b)
    ensures Trim(s) != "" ==> Trim(s)[0] != ' ' && Trim(s)[|Trim(s)| - 1] != ' '
  {
    a := TrimLeftIs(s);
    b := TrimRightIs(TrimLeft(s));
    hide TrimLeft, TrimRight, Blanks;
  }

  /** strings.Split at commas. */
  function Split(s: string): (parts: seq<string>)
    ensures parts != []
  {
    if s == "" then [""]
    else
      var front := Split(s[..|s| - 1]);
      var c := s[|s| - 1];
      if c == ',' then front + [""] else front[|front| - 1 := front[|front| - 1] + [c]]
  }

  function Join(parts: seq<string>): string {
    if parts == [] then ""
    else if |parts| == 1 then parts[0]
    else Join(parts[..|parts| - 1]) + "," + parts[|parts| - 1]
  }

  /** Splitting loses nothing but the commas: joining gives the text back, and no part holds a comma. */
  lemma {:induction false} SplitRoundTrip(s: string)
    ensures Join(Split(s)) == s
    ensures forall i :: 0 <= i < |Split(s)| ==> ',' !in Split(s)[i]
  {
    if s != "" {
      var front, c := Split(s[..|s| - 1]), s[|s| - 1];
      SplitRoundTrip(s[..|s| - 1]);
      assert s == s[..|s| - 1] + [c];
      if c == ',' {
        assert Split(s)[..|front|] == front;
      } else {
        assert Split(s)[..|front| - 1] == front[..|front| - 1];
      }
    }
  }

  lemma {:induction false} SplitAtComma(s: string, last: string)
    requires ',' !in last
    ensures Split(s + "," + last) == Split(s) + [last]
  {
    var all := s + "," + last;
    if last == "" {
      assert all[..|all| - 1] == s;
    } else {
      assert all[..|all| - 1] == s + "," + last[..|last| - 1];
      SplitAtComma(s, last[..|last| - 1]);
      assert last == last[..|last| - 1] + [last[|last| - 1]];
    }
  }

  lemma {:induction false} SplitOne(s: string)
    requires ',' !in s
    ensures Split(s) == [s]
  {
    if s != "" {
      SplitOne(s[..|s| - 1]);
      assert s == s[..|s| - 1] + [s[|s| - 1]];
    }
  }

  /** And it gives just the parts that were joined, whatever they are. */
  lemma {:induction false} JoinRoundTrip(parts: seq<string>)
    requires parts != [] && forall i :: 0 <= i < |parts| ==> ',' !in parts[i]
    ensures Split(Join(parts)) == parts
  {
    if |parts| == 1 {
      SplitOne(parts[0]);
    } else {
      var n := |parts| - 1;
      JoinRoundTrip(parts[..n]);
      SplitAtComma(Join(parts[..n]), parts[n]);
      assert parts == parts[..n] + [parts[n]];
    }
  }

  // ----- the arguments of a description

  predicate IsArgChar(c: char) {
    'a' <= c <= 'z' || c == '_' || c == ',' || c == ' '
  }

  /** The match of the argument pattern at position p: backslash, bracket, argument characters, backslash, bracket. */
  predicate MatchesAt(d: string, p: nat, q: nat) {
    && p + 4 <= q <= |d|
    && d[p] == '\\' && d[p + 1] == '[' && d[q - 2] == '\\' && d[q - 1] == ']'
    && forall i :: p + 2 <= i < q - 2 ==> 'a' <= d[i] <= 'z' || d[i] in "_, "
  }

  /** The end of the run of argument characters that starts at i. */
  function RunEnd(d: string, i: nat): (j: nat)
    requires i <= |d|
    ensures i <= j <= |d|
    ensures forall k :: i <= k < j ==> IsArgChar(d[k])
    ensures j == |d| || !IsArgChar(d[j])
    decreases |d| - i
  {
    if i < |d| && IsArgChar(d[i]) then RunEnd(d, i + 1) else i
  }

  function MatchEnd(d: string, p: nat): Option<nat> {
    if p + 1 < |d| && d[p] == '\\' && d[p + 1] == '[' then
      var j := RunEnd(d, p + 2);
      if j + 1 < |d| && d[j] == '\\' && d[j + 1] == ']' then Some(j + 2) else None
    else None
  }

  /** Reading on to the first character that cannot be an argument's finds the match, the only one there is. */
  lemma MatchEndIsTheMatch(d: string, p: nat, q: nat)
    ensures MatchesAt(d, p, q) <==> MatchEnd(d, p) == Some(q)
  {
  }

  /** The text between the brackets of the leftmost match, if any. */
  function FindArgs(d: string, from: nat): Option<string>
    decreases |d| - from
  {
    if from >= |d| then None
    else if MatchEnd(d, from).Some? then
      MatchEndIsTheMatch(d, from, MatchEnd(d, from).value);
      Some(d[from + 2..MatchEnd(d, from).value - 2])
    else FindArgs(d, from + 1)
  }

  /** args is what stands between the brackets of the leftmost match. */
  ghost predicate IsLeftmost(d: string, from: nat, args: string) {
    exists p, q ::
      && from <= p && MatchesAt(d, p, q) && args == d[p + 2..q - 2]
      && forall i, j :: from <= i < p ==> !MatchesAt(d, i, j)
  }

  lemma {:induction false} FindsLeftmost(d: string, from: nat)
    ensures FindArgs(d, from).Some? ==> IsLeftmost(d, from, FindArgs(d, from).value)
    ensures FindArgs(d, from).None? ==> forall i, j :: from <= i ==> !MatchesAt(d, i, j)
    decreases |d| - from
  {
    if from < |d| {
      forall q: nat ensures MatchesAt(d, from, q) <==> MatchEnd(d, from) == Some(q) {
        MatchEndIsTheMatch(d, from, q);
      }
      if MatchEnd(d, from).None? {
        FindsLeftmost(d, from + 1);
      } else {
        assert MatchesAt(d, from, MatchEnd(d, from).value);
      }
    }
  }

  function Trimmed(parts: seq<string>): (r: seq<string>)
    ensures |r| == |parts| && forall i :: 0 <= i < |r| ==> r[i] == Trim(parts[i])
  {
    seq(|parts|, i requires 0 <= i < |parts| => Trim(parts[i]))
  }

  /** The argument names of a description; an empty list between the brackets counts as none. */
  function ValuesOf(description: string): seq<string> {
    match FindArgs(description, 0)
    case None => []
    case Some(args) => if args == "" then [] else Trimmed(Split(args))
  }

  method GetValues(description: string) returns (values: seq<string>)
    ensures values == ValuesOf(description)
  {
    var args := FindArgs(description, 0);
    if args.None? || args.value == "" {
      return [];
    }
    values := Split(args.value);
    ghost var parts := values;
    for i := 0 to |values|
      invariant |values| == |parts|
      invariant forall j :: 0 <= j < i ==> values[j] == Trim(parts[j])
      invariant forall j :: i <= j < |parts| ==> values[j] == parts[j]
    {
      values := values[i := Trim(values[i])];
    }
  }
}
