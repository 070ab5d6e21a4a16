/** Shared vocabulary of the model: the optional and error-carrying results that
    stand for Go's `(value, ok)` and `(value, error)` pairs, and the Go standard
    library string and number functions (`strings`, `strconv`) the core calls,
    written out over `seq<char>`. */
module Base {

  datatype Option<+T> = None | Some(value: T)

  /** A Go `(value, error)` pair: `Err` carries the error's text. */
  datatype Result<+T> = Ok(value: T) | Err(error: string)

  /** The error text of Go's nil-pointer panic, as a deferred `recover` reports it. */
  const NilDereference := "runtime error: invalid memory address or nil pointer dereference"

  /** An element of a non-empty set (the witness a `:|` choice needs). */
  lemma Pick<T>(s: set<T>) returns (x: T)
    requires s != {}
    ensures x in s
  {
    if forall y :: y !in s {
      assert false;
    }
    x :| x in s;
  }

  /** No element occurs twice: the key orders a Go map or store enumerates. */
  predicate NoRepeats<T(==)>(s: seq<T>) {
    forall i, j :: 0 <= i < j < |s| ==> s[i] != s[j]
  }

  /** `Properties.GetString(key, default)` over a property map. */
  function GetString(props: map<string, string>, key: string, default: string): (r: string)
    ensures key in props ==> r == props[key]
    ensures key !in props ==> r == default
  {
    if key in props then props[key] else default
  }

  // ---------------------------------------------------------------------------
  // strings.HasPrefix / HasSuffix / Contains / IndexByte

  predicate HasPrefix(s: string, prefix: string) {
    |prefix| <= |s| && s[..|prefix|] == prefix
  }

  predicate HasSuffix(s: string, suffix: string) {
    |suffix| <= |s| && s[|s| - |suffix|..] == suffix
  }

  /** strings.Contains: `w` occurs somewhere in `s` (the empty word occurs everywhere). */
  predicate Contains(s: string, w: string)
    decreases |s|
  {
    HasPrefix(s, w) || (|s| > 0 && Contains(s[1..], w))
  }

  /** `w` occurring at position `k` of `s` is found by `Contains`. */
  lemma {:induction false} ContainsAt(s: string, w: string, k: nat)
    requires k + |w| <= |s| && s[k..][..|w|] == w
    ensures Contains(s, w)
    decreases k
  {
    if k > 0 {
      assert s[1..][k - 1..] == s[k..];
      ContainsAt(s[1..], w, k - 1);
    }
  }

  /** strings.IndexByte: the first position of `c` in `s`, or -1. */
  function IndexByte(s: string, c: char): (r: int)
    ensures -1 <= r < |s|
    ensures r == -1 <==> c !in s
    ensures 0 <= r ==> r < |s| && s[r] == c && c !in s[..r]
  {
    if |s| == 0 then -1
    else if s[0] == c then 0
    else
      var k := IndexByte(s[1..], c);
      if k == -1 then -1
      else
        assert s[..k + 1] == [s[0]] + s[1..][..k];
        k + 1
  }

  // ---------------------------------------------------------------------------
  // strings.Split (one-character separator) and strings.Join

  /** strings.Split(s, [sep]): the pieces between the separators, `[""]` for the empty string. */
  function Split(s: string, sep: char): (r: seq<string>)
    ensures |r| >= 1
    ensures forall k :: 0 <= k < |r| ==> sep !in r[k]
    decreases |s|
  {
    var i := IndexByte(s, sep);
    if i == -1 then [s] else [s[..i]] + Split(s[i + 1..], sep)
  }

  /** strings.Join. */
  function Join(parts: seq<string>, sep: string): string
  {
    if |parts| == 0 then ""
    else if |parts| == 1 then parts[0]
    else parts[0] + sep + Join(parts[1..], sep)
  }

  /** Joining one more piece adds the separator and the piece at the end. */
  lemma {:induction false} JoinSnoc(parts: seq<string>, x: string, sep: string)
    requires |parts| > 0
    ensures Join(parts + [x], sep) == Join(parts, sep) + sep + x
    decreases |parts|
  {
    var all := parts + [x];
    assert all[0] == parts[0] && all[1..] == parts[1..] + [x];
    if |parts| == 1 {
      assert all[1..] == [x];
      assert Join(all, sep) == parts[0] + sep + Join([x], sep);
    } else {
      JoinSnoc(parts[1..], x, sep);
      assert Join(all, sep) == parts[0] + sep + Join(parts[1..] + [x], sep);
      assert Join(parts, sep) == parts[0] + sep + Join(parts[1..], sep);
    }
  }

  /** Splitting at a separator and joining the pieces again gives back the input. */
  lemma {:induction false} JoinSplit(s: string, sep: char)
    ensures Join(Split(s, sep), [sep]) == s
    decreases |s|
  {
    var i := IndexByte(s, sep);
    if i != -1 {
      var rest := s[i + 1..];
      var tail := Split(rest, sep);
      JoinSplit(rest, sep);
      var parts := [s[..i]] + tail;
      assert Split(s, sep) == parts;
      assert parts[0] == s[..i] && parts[1..] == tail;
      assert Join(parts, [sep]) == s[..i] + [sep] + rest;
      assert s == s[..i] + [sep] + rest;
    }
  }

  /** The first separator after a separator-free piece is the one right after it. */
  lemma {:induction false} IndexByteAfter(p: string, sep: char, rest: string)
    requires sep !in p
    ensures IndexByte(p + [sep] + rest, sep) == |p|
    decreases |p|
  {
    if |p| > 0 {
      IndexByteAfter(p[1..], sep, rest);
      assert (p + [sep] + rest)[1..] == p[1..] + [sep] + rest;
    }
  }

  /** Splitting a separator-free piece followed by the separator takes the piece off
      the front. */
  lemma SplitAfterPiece(p: string, sep: char, rest: string)
    requires sep !in p
    ensures Split(p + [sep] + rest, sep) == [p] + Split(rest, sep)
  {
    var s := p + [sep] + rest;
    IndexByteAfter(p, sep, rest);
    assert s[..|p|] == p;
    assert s[|p| + 1..] == rest;
  }

  /** Joining pieces free of the separator and splitting again gives back the pieces. */
  lemma {:induction false} SplitJoin(parts: seq<string>, sep: char)
    requires |parts| > 0
    requires forall k :: 0 <= k < |parts| ==> sep !in parts[k]
    ensures Split(Join(parts, [sep]), sep) == parts
    decreases |parts|
  {
    if |parts| > 1 {
      var tail := parts[1..];
      assert forall k :: 0 <= k < |tail| ==> sep !in tail[k] by {
        forall k | 0 <= k < |tail| ensures sep !in tail[k] {
          assert tail[k] == parts[k + 1];
        }
      }
      SplitJoin(tail, sep);
      var rest := Join(tail, [sep]);
      assert Join(parts, [sep]) == parts[0] + [sep] + rest;
      SplitAfterPiece(parts[0], sep, rest);
      assert parts == [parts[0]] + tail;
    } else {
      assert IndexByte(parts[0], sep) == -1;
    }
  }

  /** A "key=value" piece split at its first '='; without '=' the whole piece is the
      key and the value is empty. */
  function SplitKeyValue(s: string): (string, string) {
    var i := IndexByte(s, '=');
    if i == -1 then (s, "") else (s[..i], s[i + 1..])
  }

  /** The key holds no '='; with an '=' the piece is key, '=' and value, without one
      it is all key. */
  lemma SplitKeyValueParts(s: string)
    ensures '=' !in SplitKeyValue(s).0
    ensures '=' in s ==> s == SplitKeyValue(s).0 + "=" + SplitKeyValue(s).1
    ensures '=' !in s ==> SplitKeyValue(s) == (s, "")
  {
    var i := IndexByte(s, '=');
    if i != -1 {
      assert s == s[..i] + "=" + s[i + 1..];
    }
  }

  /** Splitting a key without '=' joined to any value gives back both. */
  lemma SplitKeyValueOfJoined(key: string, value: string)
    requires '=' !in key
    ensures SplitKeyValue(key + "=" + value) == (key, value)
  {
    IndexByteAfter(key, '=', value);
    var s := key + "=" + value;
    assert s[..|key|] == key && s[|key| + 1..] == value;
  }

  // ---------------------------------------------------------------------------
  // strings.TrimSpace, ToUpper, ToLower, ReplaceAll of one character

  /** unicode.IsSpace: the Latin-1 white space, then the Unicode White_Space
      property above it. */
  predicate IsSpace(c: char) {
    c == ' ' || c == '\t' || c == '\n' || c == '\r' || c == '\U{000B}' || c == '\U{000C}'
    || c == '\U{0085}' || c == '\U{00A0}'
    || c == '\U{1680}' || ('\U{2000}' <= c <= '\U{200A}') || c == '\U{2028}' || c == '\U{2029}'
    || c == '\U{202F}' || c == '\U{205F}' || c == '\U{3000}'
  }

  function TrimLeft(s: string): (r: string)
    ensures |r| <= |s| && r == s[|s| - |r|..]
    ensures r == [] || !IsSpace(r[0])
    decreases |s|
  {
    if |s| > 0 && IsSpace(s[0]) then TrimLeft(s[1..]) else s
  }

  function TrimRight(s: string): (r: string)
    ensures |r| <= |s| && r == s[..|r|]
    ensures r == [] || !IsSpace(r[|r| - 1])
    ensures forall k :: |r| <= k < |s| ==> IsSpace(s[k])
    decreases |s|
  {
    if |s| > 0 && IsSpace(s[|s| - 1]) then TrimRight(s[..|s| - 1]) else s
  }

  /** strings.TrimSpace: a slice of `s` with no white space at either end. */
  function TrimSpace(s: string): (r: string)
    ensures |r| <= |s|
    ensures r == [] || (!IsSpace(r[0]) && !IsSpace(r[|r| - 1]))
  {
    TrimRight(TrimLeft(s))
  }

  function UpperChar(c: char): char {
    if 'a' <= c <= 'z' then (c as int - 'a' as int + 'A' as int) as char else c
  }

  function LowerChar(c: char): char {
    if 'A' <= c <= 'Z' then (c as int - 'A' as int + 'a' as int) as char else c
  }

  /** strings.ToUpper on ASCII letters. */
  function ToUpper(s: string): (r: string)
    ensures |r| == |s| && forall k :: 0 <= k < |s| ==> r[k] == UpperChar(s[k])
  {
    seq(|s|, k requires 0 <= k < |s| => UpperChar(s[k]))
  }

  /** strings.ToLower on ASCII letters. */
  function ToLower(s: string): (r: string)
    ensures |r| == |s| && forall k :: 0 <= k < |s| ==> r[k] == LowerChar(s[k])
  {
    seq(|s|, k requires 0 <= k < |s| => LowerChar(s[k]))
  }

  /** strings.ReplaceAll(s, [from], [to]) for one-character patterns. */
  function ReplaceChar(s: string, from: char, to: char): (r: string)
    ensures |r| == |s|
    ensures forall k :: 0 <= k < |s| ==> r[k] == (if s[k] == from then to else s[k])
  {
    seq(|s|, k requires 0 <= k < |s| => if s[k] == from then to else s[k])
  }

  // ---------------------------------------------------------------------------
  // strconv: decimal formatting and parsing of 64-bit integers

  const MinInt64: int := -0x8000_0000_0000_0000
  const MaxInt64: int := 0x7FFF_FFFF_FFFF_FFFF

  predicate InInt64(x: int) { MinInt64 <= x <= MaxInt64 }

  /** Two's-complement wrap-around of Go's int64 arithmetic. */
  function WrapInt64(x: int): (r: int)
    ensures InInt64(r)
    ensures InInt64(x) ==> r == x
  {
    (x - MinInt64) % 0x1_0000_0000_0000_0000 + MinInt64
  }

  const MinInt32: int := -0x8000_0000
  const MaxInt32: int := 0x7FFF_FFFF

  predicate InInt32(x: int) { MinInt32 <= x <= MaxInt32 }

  /** Two's-complement wrap-around of Go's int32 arithmetic. */
  function WrapInt32(x: int): (r: int)
    ensures InInt32(r)
    ensures InInt32(x) ==> r == x
  {
    (x - MinInt32) % 0x1_0000_0000 + MinInt32
  }

  /** Go's integer `/`, which truncates toward zero. */
  function TruncDiv(a: int, b: int): (r: int)
    requires b > 0
    ensures a >= 0 ==> r == a / b
    ensures a < 0 ==> r == -((-a) / b)
  {
    if a >= 0 then a / b else -((-a) / b)
  }

  function DigitChar(d: nat): char
    requires d < 10
  {
    ('0' as int + d) as char
  }

  predicate IsDigit(c: char) { '0' <= c <= '9' }

  function DigitValue(c: char): nat
    requires IsDigit(c)
  {
    c as int - '0' as int
  }

  /** strconv.Itoa on a non-negative number. */
  function NatToString(n: nat): (r: string)
    ensures |r| >= 1 && forall k :: 0 <= k < |r| ==> IsDigit(r[k])
  {
    if n < 10 then [DigitChar(n)] else NatToString(n / 10) + [DigitChar(n % 10)]
  }

  /** strconv.Itoa / fmt's `%d`. */
  function IntToString(n: int): string {
    if n < 0 then "-" + NatToString(-n) else NatToString(n)
  }

  /** The value of a non-empty run of decimal digits. */
  function DigitsValue(s: string): nat
    requires forall k :: 0 <= k < |s| ==> IsDigit(s[k])
  {
    if |s| == 0 then 0 else DigitsValue(s[..|s| - 1]) * 10 + DigitValue(s[|s| - 1])
  }

  lemma {:induction false} DigitsOfNatToString(n: nat)
    ensures DigitsValue(NatToString(n)) == n
  {
    if n >= 10 {
      DigitsOfNatToString(n / 10);
      var s := NatToString(n / 10) + [DigitChar(n % 10)];
      assert s[..|s| - 1] == NatToString(n / 10);
    }
  }

  predicate AllDigits(s: string) {
    |s| > 0 && forall k :: 0 <= k < |s| ==> IsDigit(s[k])
  }

  /** The error text strconv gives for `s`. */
  function SyntaxError(fn: string, s: string): string {
    "strconv." + fn + ": parsing \"" + s + "\": invalid syntax"
  }

  /** strconv.ParseInt(s, 10, 64) (and strconv.Atoi on a 64-bit platform):
      an optional sign and at least one decimal digit, within the int64 range. */
  function ParseInt64(fn: string, s: string): (r: Result<int>)
    ensures r.Ok? ==> InInt64(r.value)
  {
    var neg := |s| > 0 && s[0] == '-';
    var body := if |s| > 0 && (s[0] == '-' || s[0] == '+') then s[1..] else s;
    if !AllDigits(body) then Err(SyntaxError(fn, s))
    else
      var d: int := DigitsValue(body);
      var v := if neg then -d else d;
      if InInt64(v) then Ok(v)
      else Err("strconv." + fn + ": parsing \"" + s + "\": value out of range")
  }

  /** Formatting a number and parsing it back is the identity inside the int64 range. */
  lemma ParseIntOfIntToString(fn: string, n: int)
    requires InInt64(n)
    ensures ParseInt64(fn, IntToString(n)) == Ok(n)
  {
    var m: nat := if n < 0 then -n else n;
    var digits := NatToString(m);
    DigitsOfNatToString(m);
    assert AllDigits(digits);
    var s := IntToString(n);
    if n < 0 {
      assert s == "-" + digits;
      assert s[0] == '-' && s[1..] == digits;
    } else {
      assert s == digits && s[0] != '-' && s[0] != '+';
    }
  }

  // ---------------------------------------------------------------------------
  // Byte-wise string order (Go's `<` on strings, used by sort.Strings)

  predicate StrLessEq(a: string, b: string)
    decreases |a|
  {
    |a| == 0 || (|b| > 0 && (a[0] < b[0] || (a[0] == b[0] && StrLessEq(a[1..], b[1..]))))
  }

  lemma {:induction false} StrLessEqTotal(a: string, b: string)
    ensures StrLessEq(a, b) || StrLessEq(b, a)
    decreases |a|
  {
    if |a| > 0 && |b| > 0 && a[0] == b[0] {
      StrLessEqTotal(a[1..], b[1..]);
    }
  }

  lemma {:induction false} StrLessEqAntisymmetric(a: string, b: string)
    requires StrLessEq(a, b) && StrLessEq(b, a)
    ensures a == b
    decreases |a|
  {
    if |a| > 0 {
      StrLessEqAntisymmetric(a[1..], b[1..]);
      assert a == [a[0]] + a[1..] && b == [b[0]] + b[1..];
    }
  }

  lemma {:induction false} StrLessEqTransitive(a: string, b: string, c: string)
    requires StrLessEq(a, b) && StrLessEq(b, c)
    ensures StrLessEq(a, c)
    decreases |a|
  {
    if |a| > 0 && a[0] == b[0] && b[0] == c[0] {
      StrLessEqTransitive(a[1..], b[1..], c[1..]);
    }
  }
}
