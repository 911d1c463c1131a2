/**
  The few .NET string operations the shader scanner relies on, stated on
  `string` (= `seq<char>`). Each function follows the behaviour of the .NET
  member named in its comment for non-null strings. Searches return
  positions in the string they search rather than cut it into pieces, and
  quantified facts about characters are stated through `CharAt`.
 */
module Text {

  datatype Option<T> = None | Some(value: T)

  /** The character at position `i`. */
  function CharAt(s: string, i: nat): char
    requires i < |s|
  {
    s[i]
  }

  /** char.IsWhiteSpace: the Unicode space separators, line and paragraph
      separators, and the control characters U+0009 to U+000D and U+0085. */
  predicate IsWhiteSpace(c: char) {
    ('\t' <= c <= '\r') || c == ' ' || c == '\U{0085}' || c == '\U{00A0}' || c == '\U{1680}'
    || ('\U{2000}' <= c <= '\U{200A}') || c == '\U{2028}' || c == '\U{2029}'
    || c == '\U{202F}' || c == '\U{205F}' || c == '\U{3000}'
  }

  /** Every character from `from` up to `to` is white space. */
  predicate BlankBetween(s: string, from: nat, to: nat)
    requires from <= to <= |s|
  {
    forall i :: from <= i < to ==> IsWhiteSpace(CharAt(s, i))
  }

  /** string.IsNullOrWhiteSpace on a non-null string. */
  predicate IsBlank(s: string) {
    BlankBetween(s, 0, |s|)
  }

  /** string.StartsWith, compared character by character. */
  predicate StartsWith(s: string, prefix: string) {
    prefix <= s
  }

  /** The first position at or after `from` that is not white space, or |s|. */
  function SkipWhiteSpace(s: string, from: nat): (k: nat)
    requires from <= |s|
    ensures from <= k <= |s| && BlankBetween(s, from, k)
    ensures k < |s| ==> !IsWhiteSpace(CharAt(s, k))
    decreases |s| - from
  {
    if from == |s| || !IsWhiteSpace(CharAt(s, from)) then from else SkipWhiteSpace(s, from + 1)
  }

  /** The end of `s[..to]` once its trailing white space is dropped. */
  function SkipWhiteSpaceBack(s: string, to: nat): (k: nat)
    requires to <= |s|
    ensures k <= to && BlankBetween(s, k, to)
    ensures k > 0 ==> !IsWhiteSpace(CharAt(s, k - 1))
  {
    if to == 0 || !IsWhiteSpace(CharAt(s, to - 1)) then to else SkipWhiteSpaceBack(s, to - 1)
  }

  /** string.Trim(): drops white space at both ends. */
  function Trim(s: string): string
  {
    var a := SkipWhiteSpace(s, 0);
    if a == |s| then [] else s[a..SkipWhiteSpaceBack(s, |s|)]
  }

  /** Trim keeps the part of `s` between a blank prefix and a blank suffix;
      it is empty exactly for blank input, and otherwise starts and ends with
      a character that is not white space. */
  lemma TrimMeaning(s: string)
    ensures IsBlank(s) <==> Trim(s) == []
    ensures Trim(s) != [] ==>
      var a := SkipWhiteSpace(s, 0);
      var b := SkipWhiteSpaceBack(s, |s|);
      && a < b && Trim(s) == s[a..b] && BlankBetween(s, 0, a) && BlankBetween(s, b, |s|)
      && !IsWhiteSpace(Trim(s)[0]) && !IsWhiteSpace(Trim(s)[|Trim(s)| - 1])
  {
    var a := SkipWhiteSpace(s, 0);
    var b := SkipWhiteSpaceBack(s, |s|);
    if a < |s| {
      assert !IsWhiteSpace(CharAt(s, a));
      assert a < b;
      assert Trim(s)[0] == CharAt(s, a);
      assert Trim(s)[|Trim(s)| - 1] == CharAt(s, b - 1);
    }
  }

  /** string.IndexOf(char, startIndex): the first position at or after
      `from` holding `c`, or -1. */
  function IndexOfFrom(s: string, c: char, from: nat): (r: int)
    requires from <= |s|
    ensures r == -1 || (from <= r < |s| && CharAt(s, r) == c)
    ensures r >= 0 ==> forall i :: from <= i < r ==> CharAt(s, i) != c
    ensures r < 0 ==> forall i :: from <= i < |s| ==> CharAt(s, i) != c
    decreases |s| - from
  {
    if from == |s| then -1
    else if CharAt(s, from) == c then from
    else IndexOfFrom(s, c, from + 1)
  }

  /** string.IndexOf(char): the first position of `c`, or -1. */
  function IndexOf(s: string, c: char): (r: int)
    ensures r == -1 || (0 <= r < |s| && CharAt(s, r) == c)
    ensures r >= 0 ==> forall i :: 0 <= i < r ==> CharAt(s, i) != c
    ensures r < 0 ==> forall i :: 0 <= i < |s| ==> CharAt(s, i) != c
  {
    IndexOfFrom(s, c, 0)
  }

  /** The first position at or after `from` holding a character of `cs`, or -1. */
  function IndexOfAnyFrom(s: string, cs: set<char>, from: nat): (r: int)
    requires from <= |s|
    ensures r == -1 || (from <= r < |s| && CharAt(s, r) in cs)
    ensures r >= 0 ==> forall i :: from <= i < r ==> CharAt(s, i) !in cs
    ensures r < 0 ==> forall i :: from <= i < |s| ==> CharAt(s, i) !in cs
    decreases |s| - from
  {
    if from == |s| then -1
    else if CharAt(s, from) in cs then from
    else IndexOfAnyFrom(s, cs, from + 1)
  }

  /** No character of `s` belongs to `cs`. */
  predicate Free(s: string, cs: set<char>) {
    forall i :: 0 <= i < |s| ==> CharAt(s, i) !in cs
  }

  /** `sub` occurs in `s` at position `k`. */
  predicate OccursAt(s: string, sub: string, k: nat) {
    k + |sub| <= |s| && s[k..k + |sub|] == sub
  }

  /** string.IndexOf(string, startIndex) with an ordinal comparison: the first
      position at or after `from` where `sub` occurs, or -1. */
  function IndexOfStringFrom(s: string, sub: string, from: nat): (r: int)
    requires from <= |s|
    ensures r == -1 || (from <= r && OccursAt(s, sub, r))
    ensures r >= 0 ==> forall k :: from <= k < r ==> !OccursAt(s, sub, k)
    ensures r < 0 ==> forall k :: from <= k <= |s| ==> !OccursAt(s, sub, k)
    decreases |s| - from
  {
    if OccursAt(s, sub, from) then from
    else if from == |s| then -1
    else IndexOfStringFrom(s, sub, from + 1)
  }

  /** The pieces of `s[from..]` cut at every character of `seps`. */
  function SplitFrom(s: string, seps: set<char>, from: nat): (r: seq<string>)
    requires from <= |s|
    ensures |r| >= 1
    decreases |s| - from
  {
    var k := IndexOfAnyFrom(s, seps, from);
    if k < 0 then [s[from..]] else [s[from..k]] + SplitFrom(s, seps, k + 1)
  }

  /** string.Split(params char[]) with the default options: cuts at every
      separator and keeps the empty pieces, so there is one more piece than
      there are separators. */
  function Split(s: string, seps: set<char>): (r: seq<string>)
    ensures |r| >= 1
  {
    SplitFrom(s, seps, 0)
  }

  /** string.Join(char, string[]). */
  function Join(parts: seq<string>, sep: char): string
  {
    if |parts| == 0 then ""
    else if |parts| == 1 then parts[0]
    else parts[0] + [sep] + Join(parts[1..], sep)
  }

  /** The characters of `s[from..to]`, none in `cs`, form a piece free of `cs`. */
  lemma FreeSlice(s: string, cs: set<char>, from: nat, to: nat)
    requires from <= to <= |s|
    requires forall i :: from <= i < to ==> CharAt(s, i) !in cs
    ensures Free(s[from..to], cs)
  {
    forall i | 0 <= i < to - from ensures CharAt(s[from..to], i) !in cs {
      assert CharAt(s[from..to], i) == CharAt(s, from + i);
    }
  }

  lemma {:induction false} SplitFromFree(s: string, seps: set<char>, from: nat)
    requires from <= |s|
    ensures forall i :: 0 <= i < |SplitFrom(s, seps, from)| ==> Free(SplitFrom(s, seps, from)[i], seps)
    decreases |s| - from
  {
    var k := IndexOfAnyFrom(s, seps, from);
    if k < 0 {
      FreeSlice(s, seps, from, |s|);
      assert s[from..|s|] == s[from..];
    } else {
      FreeSlice(s, seps, from, k);
      SplitFromFree(s, seps, k + 1);
    }
  }

  /** No piece of a split holds a separator. */
  lemma SplitFree(s: string, seps: set<char>)
    ensures forall i :: 0 <= i < |Split(s, seps)| ==> Free(Split(s, seps)[i], seps)
  {
    SplitFromFree(s, seps, 0);
  }

  lemma {:induction false} JoinSplitFrom(s: string, sep: char, from: nat)
    requires from <= |s|
    ensures Join(SplitFrom(s, {sep}, from), sep) == s[from..]
    decreases |s| - from
  {
    var k := IndexOfAnyFrom(s, {sep}, from);
    if k >= 0 {
      JoinSplitFrom(s, sep, k + 1);
      assert CharAt(s, k) == sep;
      assert s[from..] == s[from..k] + [sep] + s[k + 1..];
    }
  }

  /** Splitting at one separator and joining the pieces back gives the input. */
  lemma JoinSplit(s: string, sep: char)
    ensures Join(Split(s, {sep}), sep) == s
  {
    JoinSplitFrom(s, sep, 0);
  }

  /** The pieces of a split that are not empty, in order. */
  function NonEmpty(parts: seq<string>): (r: seq<string>)
    ensures forall i :: 0 <= i < |r| ==> r[i] != [] && r[i] in parts
    ensures forall i :: 0 <= i < |parts| && parts[i] != [] ==> parts[i] in r
  {
    if |parts| == 0 then []
    else if parts[0] == [] then NonEmpty(parts[1..])
    else [parts[0]] + NonEmpty(parts[1..])
  }

  /** Dropping empty pieces keeps the others in order, one for one: it
      distributes over concatenation... */
  lemma {:induction false} NonEmptyAppend(a: seq<string>, b: seq<string>)
    ensures NonEmpty(a + b) == NonEmpty(a) + NonEmpty(b)
  {
    if a == [] {
      assert a + b == b;
    } else {
      assert (a + b)[0] == a[0] && (a + b)[1..] == a[1..] + b;
      NonEmptyAppend(a[1..], b);
      if a[0] != [] {
        assert [a[0]] + (NonEmpty(a[1..]) + NonEmpty(b)) == ([a[0]] + NonEmpty(a[1..])) + NonEmpty(b);
      }
    }
  }

  /** ...and a single piece is kept exactly when it is not empty. */
  lemma NonEmptyOne(p: string)
    ensures NonEmpty([p]) == if p == [] then [] else [p]
  {
    assert [p][1..] == [];
  }

  /** string.Split(char[], StringSplitOptions.RemoveEmptyEntries). */
  function SplitRemoveEmpty(s: string, seps: set<char>): (r: seq<string>)
    ensures forall i :: 0 <= i < |r| ==> r[i] != []
  {
    NonEmpty(Split(s, seps))
  }

  /** No piece of a split without empty entries holds a separator. */
  lemma SplitRemoveEmptyFree(s: string, seps: set<char>)
    ensures forall i :: 0 <= i < |SplitRemoveEmpty(s, seps)| ==> Free(SplitRemoveEmpty(s, seps)[i], seps)
  {
    SplitFree(s, seps);
  }

  predicate IsDigit(c: char) {
    '0' <= c <= '9'
  }

  /** Every character is a decimal digit. */
  predicate AllDigits(s: string) {
    forall i :: 0 <= i < |s| ==> IsDigit(s[i])
  }

  /** The value of a string of decimal digits, most significant first. */
  function DigitsValue(ds: string): nat
    requires AllDigits(ds)
  {
    if ds == [] then 0 else DigitsValue(ds[..|ds| - 1]) * 10 + (ds[|ds| - 1] as int - '0' as int)
  }

  /** The white space NumberStyles.Integer allows before and after a number:
      U+0009 to U+000D and the space (fewer characters than char.IsWhiteSpace). */
  predicate IsNumberWhite(c: char) {
    ('\t' <= c <= '\r') || c == ' '
  }

  /** Every character is '\0'. */
  predicate AllNul(s: string) {
    forall i :: 0 <= i < |s| ==> s[i] == '\0'
  }

  /** The first position at or after `from` that is not number white space. */
  function SkipNumberWhite(s: string, from: nat): (k: nat)
    requires from <= |s|
    ensures from <= k <= |s|
    ensures forall i :: from <= i < k ==> IsNumberWhite(s[i])
    ensures k < |s| ==> !IsNumberWhite(s[k])
    decreases |s| - from
  {
    if from == |s| || !IsNumberWhite(s[from]) then from else SkipNumberWhite(s, from + 1)
  }

  /** The first position at or after `from` that is not a decimal digit. */
  function SkipDigits(s: string, from: nat): (k: nat)
    requires from <= |s|
    ensures from <= k <= |s|
    ensures forall i :: from <= i < k ==> IsDigit(s[i])
    ensures k < |s| ==> !IsDigit(s[k])
    decreases |s| - from
  {
    if from == |s| || !IsDigit(s[from]) then from else SkipDigits(s, from + 1)
  }

  const Int32Min: int := -0x8000_0000
  const Int32Max: int := 0x7FFF_FFFF

  /** int.TryParse(string, out int), which parses with NumberStyles.Integer,
      with the sign and digit characters of an English culture: leading
      white space, an optional sign, at least one decimal digit, trailing
      white space, and then any number of '\0' characters; the value must
      fit in 32 bits. */
  function ParseInt32(s: string): (r: Option<int>)
    ensures r.Some? ==> Int32Min <= r.value <= Int32Max
    ensures r.Some? ==> |s| > 0
  {
    var a := SkipNumberWhite(s, 0);
    var b := SignEnd(s, a);
    var c := SkipDigits(s, b);
    var d := SkipNumberWhite(s, c);
    if c == b || !AllNul(s[d..]) then None
    else
      var v := SignedValue(s[a..b], s[b..c]);
      if Int32Min <= v <= Int32Max then Some(v) else None
  }

  /** The position after the optional sign at `a`. */
  function SignEnd(s: string, a: nat): (b: nat)
    requires a <= |s|
    ensures a <= b <= |s|
    ensures b == a + 1 <==> a < |s| && (s[a] == '+' || s[a] == '-')
    ensures b == a || b == a + 1
  {
    if a < |s| && (s[a] == '+' || s[a] == '-') then a + 1 else a
  }

  /** The value a sign and a digit string stand for. */
  function SignedValue(sign: string, ds: string): int
    requires AllDigits(ds)
  {
    if sign == "-" then -(DigitsValue(ds) as int) else DigitsValue(ds)
  }

  /** `s` has the shape of an integer under NumberStyles.Integer: white
      space before `a`, an optional sign from `a` to `b`, at least one digit
      from `b` to `c`, white space from `c` to `d`, and '\0' characters from
      `d` to the end. */
  predicate IntegerShape(s: string, a: nat, b: nat, c: nat, d: nat) {
    && a <= b < c <= d <= |s|
    && (forall i :: 0 <= i < a ==> IsNumberWhite(s[i]))
    && (b == a || (b == a + 1 && (s[a] == '+' || s[a] == '-')))
    && (forall i :: b <= i < c ==> IsDigit(s[i]))
    && (forall i :: c <= i < d ==> IsNumberWhite(s[i]))
    && (forall i :: d <= i < |s| ==> s[i] == '\0')
  }

  lemma SkipNumberWhiteAt(s: string, from: nat, k: nat)
    requires from <= k <= |s|
    requires forall i :: from <= i < k ==> IsNumberWhite(s[i])
    requires k < |s| ==> !IsNumberWhite(s[k])
    ensures SkipNumberWhite(s, from) == k
  {
  }

  lemma SkipDigitsAt(s: string, from: nat, k: nat)
    requires from <= k <= |s|
    requires forall i :: from <= i < k ==> IsDigit(s[i])
    requires k < |s| ==> !IsDigit(s[k])
    ensures SkipDigits(s, from) == k
  {
  }

  /** Every text of that shape whose signed value fits in 32 bits (leading
      zeros allowed) parses to that value... */
  lemma ParseInt32Accepts(s: string, a: nat, b: nat, c: nat, d: nat)
    requires IntegerShape(s, a, b, c, d)
    requires Int32Min <= SignedValue(s[a..b], s[b..c]) <= Int32Max
    ensures ParseInt32(s) == Some(SignedValue(s[a..b], s[b..c]))
  {
    assert IsDigit(s[b]);
    SkipNumberWhiteAt(s, 0, a);
    assert SignEnd(s, a) == b;
    assert c < |s| ==> !IsDigit(s[c]) by {
      if c < d {
        assert IsNumberWhite(s[c]);
      } else if c < |s| {
        assert s[c] == '\0';
      }
    }
    SkipDigitsAt(s, b, c);
    assert d < |s| ==> s[d] == '\0';
    SkipNumberWhiteAt(s, c, d);
  }

  /** ...and nothing else parses: a parsed text has that shape, with the
      parsed value. */
  lemma ParseInt32Splits(s: string)
    requires ParseInt32(s).Some?
    ensures exists a: nat, b: nat, c: nat, d: nat ::
      IntegerShape(s, a, b, c, d) && ParseInt32(s).value == SignedValue(s[a..b], s[b..c])
  {
    var a := SkipNumberWhite(s, 0);
    var b := SignEnd(s, a);
    var c := SkipDigits(s, b);
    var d := SkipNumberWhite(s, c);
    assert forall i :: d <= i < |s| ==> s[d..][i - d] == s[i];
    assert IntegerShape(s, a, b, c, d);
  }

  /** The texts the model accepts, and their values: `s` parses to `v`
      exactly when it has the shape of an integer whose signed value is `v`
      and fits in 32 bits. */
  lemma ParseInt32Meaning(s: string, v: int)
    ensures ParseInt32(s) == Some(v) <==>
      exists a: nat, b: nat, c: nat, d: nat ::
        IntegerShape(s, a, b, c, d) && v == SignedValue(s[a..b], s[b..c]) && Int32Min <= v <= Int32Max
  {
    if ParseInt32(s) == Some(v) {
      ParseInt32Splits(s);
    }
    if exists a: nat, b: nat, c: nat, d: nat ::
        IntegerShape(s, a, b, c, d) && v == SignedValue(s[a..b], s[b..c]) && Int32Min <= v <= Int32Max {
      var a: nat, b: nat, c: nat, d: nat :|
        IntegerShape(s, a, b, c, d) && v == SignedValue(s[a..b], s[b..c]) && Int32Min <= v <= Int32Max;
      ParseInt32Accepts(s, a, b, c, d);
    }
  }

  /** '\0' characters may follow the number... */
  lemma ParseInt32TrailingNul()
    ensures ParseInt32("5\0") == Some(5)
  {
    var s := "5\0";
    assert s[0..0] == [] && s[0..1] == "5" && "5"[..0] == [];
    ParseInt32Accepts(s, 0, 0, 1, 1);
  }

  /** ...also after its trailing white space... */
  lemma ParseInt32WhiteThenNul()
    ensures ParseInt32("5 \0\0") == Some(5)
  {
    var s := "5 \0\0";
    assert s[0..0] == [] && s[0..1] == "5" && "5"[..0] == [];
    ParseInt32Accepts(s, 0, 0, 1, 2);
  }

  /** ...but white space may not follow the '\0' characters. */
  lemma ParseInt32WhiteAfterNul()
    ensures ParseInt32("5\0 ") == None
  {
    var s := "5\0 ";
    SkipDigitsAt(s, 0, 1);
    SkipNumberWhiteAt(s, 1, 1);
    assert s[1..][1] == ' ';
  }

  /** The decimal digits of `n`, without leading zeros. */
  function Decimal(n: nat): (r: string)
    ensures r != [] && AllDigits(r) && IsDigit(r[0])
  {
    if n < 10 then
      [('0' as int + n) as char]
    else Decimal(n / 10) + [('0' as int + n % 10) as char]
  }

  lemma {:induction false} DecimalValue(n: nat)
    ensures DigitsValue(Decimal(n)) == n
  {
    if n >= 10 {
      DecimalValue(n / 10);
      var d := Decimal(n);
      assert d[..|d| - 1] == Decimal(n / 10);
    }
  }

  /** Parsing the decimal text of any non-negative 32-bit value gives it back. */
  lemma ParseDecimal(n: nat)
    requires n <= Int32Max
    ensures ParseInt32(Decimal(n)) == Some(n)
  {
    DecimalValue(n);
    var d := Decimal(n);
    assert d[0..0] == [] && d[0..|d|] == d;
    ParseInt32Accepts(d, 0, 0, |d|, |d|);
  }

  /** The character as StringComparison.OrdinalIgnoreCase compares it, for
      the ASCII letters. */
  function UpperAscii(c: char): char {
    if 'a' <= c <= 'z' then (c as int - 32) as char else c
  }

  /** string.Equals(a, b, StringComparison.OrdinalIgnoreCase), with case
      folding restricted to ASCII letters. */
  predicate EqualsIgnoreCase(a: string, b: string) {
    |a| == |b| && forall i :: 0 <= i < |a| ==> UpperAscii(a[i]) == UpperAscii(b[i])
  }
}
