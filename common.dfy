/** Values and string operations of the Python runtime that the rest of the model relies on. */
module Common {

  datatype Option<+T> = None | Some(value: T) {
    function GetOr(default: T): T {
      match this
      case Some(v) => v
      case None => default
    }
  }

  /** A cell of a configuration row or an optional request field; None stands for Python's None. */
  type Cell = Option<string>

  /** What `str(c)` (and an f-string) renders for a cell. */
  function Str(c: Cell): string {
    match c
    case Some(s) => s
    case None => "None"
  }

  /** Python truthiness of an optional string: neither None nor "". */
  predicate Truthy(c: Cell) {
    c.Some? && c.value != ""
  }

  predicate StartsWith(s: string, prefix: string) {
    |prefix| <= |s| && s[..|prefix|] == prefix
  }

  // ---------------------------------------------------------------- upper-casing

  function UpperChar(c: char): char {
    if 'a' <= c <= 'z' then (c as int - 32) as char else c
  }

  /** `str.upper()` on the ASCII letters. */
  function Upper(s: string): (r: string)
    ensures |r| == |s|
    ensures forall i :: 0 <= i < |s| ==> r[i] == UpperChar(s[i])
  {
    if s == [] then [] else [UpperChar(s[0])] + Upper(s[1..])
  }

  /** `str(c).upper() == "TRUE"`: the flag test the scheduling code applies to every boolean cell. */
  predicate IsTrueText(c: Cell) {
    Upper(Str(c)) == "TRUE"
  }

  /** A cell reads as TRUE exactly when it is some spelling of "true" in any mix of letter case;
      in particular None (rendered "None") and "" are never TRUE. */
  lemma IsTrueTextIff(c: Cell)
    ensures IsTrueText(c) <==>
      c.Some? && |c.value| == 4 && c.value[0] in "tT" && c.value[1] in "rR"
      && c.value[2] in "uU" && c.value[3] in "eE"
  {
    var s := Str(c);
    var u := Upper(s);
    if c.None? {
      assert u[0] == 'N';
    } else if |s| == 4 {
      assert IsTrueText(c) <==> u[0] == 'T' && u[1] == 'R' && u[2] == 'U' && u[3] == 'E';
    }
  }

  // ---------------------------------------------------------------- strip

  /** The characters Python's `str.isspace()` accepts, which are the ones `str.strip()` removes. */
  predicate IsSpace(c: char) {
    var n := c as int;
    9 <= n <= 13 || 28 <= n <= 32 || n == 0x85 || n == 0xA0 || n == 0x1680
    || 0x2000 <= n <= 0x200A || n == 0x2028 || n == 0x2029 || n == 0x202F
    || n == 0x205F || n == 0x3000
  }

  function TrimLeft(s: string): (r: string)
    ensures |r| <= |s| && r == s[|s| - |r|..]
    ensures r != [] ==> !IsSpace(r[0])
    ensures forall i :: 0 <= i < |s| - |r| ==> IsSpace(s[i])
  {
    if s != [] && IsSpace(s[0]) then TrimLeft(s[1..]) else s
  }

  function TrimRight(s: string): (r: string)
    ensures |r| <= |s| && r == s[..|r|]
    ensures r != [] ==> !IsSpace(r[|r| - 1])
    ensures forall i :: |r| <= i < |s| ==> IsSpace(s[i])
  {
    if s != [] && IsSpace(s[|s| - 1]) then TrimRight(s[..|s| - 1]) else s
  }

  /** `str.strip()`: the longest infix with no surrounding whitespace. */
  function Strip(s: string): (r: string)
  {
    TrimRight(TrimLeft(s))
  }

  /** A string is stripped when it neither starts nor ends with whitespace. */
  predicate Stripped(s: string) {
    s != [] ==> !IsSpace(s[0]) && !IsSpace(s[|s| - 1])
  }

  lemma {:induction false} TrimLeftOfUnspaced(s: string)
    requires s != [] ==> !IsSpace(s[0])
    ensures TrimLeft(s) == s
  {
  }

  lemma {:induction false} TrimRightOfUnspaced(s: string)
    requires s != [] ==> !IsSpace(s[|s| - 1])
    ensures TrimRight(s) == s
  {
  }

  /** Strip produces a stripped string, and stripping a stripped string changes nothing. */
  lemma StripStripped(s: string)
    ensures Stripped(Strip(s))
    ensures Stripped(s) ==> Strip(s) == s
  {
    var l := TrimLeft(s);
    var r := TrimRight(l);
    if r != [] {
      assert r[0] == l[0];
    }
    if Stripped(s) {
      TrimLeftOfUnspaced(s);
      TrimRightOfUnspaced(s);
    }
  }

  lemma StripIdempotent(s: string)
    ensures Strip(Strip(s)) == Strip(s)
  {
    StripStripped(s);
    StripStripped(Strip(s));
  }

  // ---------------------------------------------------------------- split and join

  /** `s.split(sep)` for a one-character separator: never empty, "" gives [""]. */
  function Split(s: string, sep: char): (r: seq<string>)
    ensures |r| >= 1
    ensures forall i :: 0 <= i < |r| ==> sep !in r[i]
  {
    if s == [] then [""]
    else
      var rest := Split(s[1..], sep);
      if s[0] == sep then [""] + rest
      else [[s[0]] + rest[0]] + rest[1..]
  }

  /** `sep.join(parts)`. */
  function Join(parts: seq<string>, sep: string): string
  {
    if |parts| == 0 then ""
    else if |parts| == 1 then parts[0]
    else parts[0] + sep + Join(parts[1..], sep)
  }

  /** Splitting undoes joining on the same one-character separator. */
  lemma {:induction false} SplitJoin(parts: seq<string>, sep: char)
    requires |parts| >= 1
    requires forall i :: 0 <= i < |parts| ==> sep !in parts[i]
    ensures Split(Join(parts, [sep]), sep) == parts
  {
    if |parts| == 1 {
      SplitNoSep(parts[0], sep);
    } else {
      SplitJoin(parts[1..], sep);
      SplitAppend(parts[0], Join(parts[1..], [sep]), sep);
    }
  }

  lemma {:induction false} SplitNoSep(s: string, sep: char)
    requires sep !in s
    ensures Split(s, sep) == [s]
  {
    if s != [] {
      assert sep !in s[1..] && s[0] != sep;
      SplitNoSep(s[1..], sep);
      assert [s[0]] + s[1..] == s;
    }
  }

  /** Splitting a + [sep] + b puts a in front of the parts of b. */
  lemma {:induction false} SplitAppend(a: string, b: string, sep: char)
    requires sep !in a
    ensures Split(a + [sep] + b, sep) == [a] + Split(b, sep)
  {
    if a == [] {
      assert (a + [sep] + b)[1..] == b;
    } else {
      assert (a + [sep] + b)[1..] == a[1..] + [sep] + b;
      SplitAppend(a[1..], b, sep);
      assert [a[0]] + a[1..] == a;
    }
  }

  /** Splitting at a separator that was put between a and b splits a and b apart. */
  lemma {:induction false} SplitConcat(a: string, b: string, sep: char)
    ensures Split(a + [sep] + b, sep) == Split(a, sep) + Split(b, sep)
  {
    if a == [] {
      assert (a + [sep] + b)[1..] == b;
    } else {
      assert (a + [sep] + b)[1..] == a[1..] + [sep] + b;
      assert (a + [sep] + b)[0] == a[0];
      SplitConcat(a[1..], b, sep);
    }
  }

  /** Text written line by line: every line followed by a line break. */
  function Lines(ls: seq<string>): string {
    if ls == [] then "" else ls[0] + "\n" + Lines(ls[1..])
  }

  predicate EndsWith(s: string, suffix: string) {
    |suffix| <= |s| && s[|s| - |suffix|..] == suffix
  }

  /** One more line adds that line and its break at the end. */
  lemma {:induction false} LinesSnoc(ls: seq<string>, x: string)
    ensures Lines(ls + [x]) == Lines(ls) + (x + "\n")
  {
    if ls != [] {
      assert (ls + [x])[1..] == ls[1..] + [x];
      LinesSnoc(ls[1..], x);
    }
  }

  /** Text written line by line starts with the first line and ends with the last, each with its break. */
  lemma LinesFirstLast(ls: seq<string>)
    requires ls != []
    ensures StartsWith(Lines(ls), ls[0] + "\n")
    ensures EndsWith(Lines(ls), ls[|ls| - 1] + "\n")
  {
    var n := |ls| - 1;
    assert ls == ls[..n] + [ls[n]];
    LinesSnoc(ls[..n], ls[n]);
    var first, rest := ls[0] + "\n", Lines(ls[1..]);
    assert Lines(ls) == first + rest;
    assert (first + rest)[..|first|] == first;
    var front, last := Lines(ls[..n]), ls[n] + "\n";
    assert (front + last)[|front + last| - |last|..] == last;
  }

  /** The pieces each line splits into at the separator, in order. */
  function SplitAll(ls: seq<string>, sep: char): seq<string> {
    if ls == [] then [] else Split(ls[0], sep) + SplitAll(ls[1..], sep)
  }

  /** Read back at line breaks, text written line by line gives the pieces of its lines, then the
      empty tail after the final break. */
  lemma {:induction false} SplitLines(ls: seq<string>)
    ensures Split(Lines(ls), '\n') == SplitAll(ls, '\n') + [""]
  {
    if ls != [] {
      SplitConcat(ls[0], Lines(ls[1..]), '\n');
      SplitLines(ls[1..]);
    }
  }

  lemma {:induction false} SplitAllAppend(a: seq<string>, b: seq<string>, sep: char)
    ensures SplitAll(a + b, sep) == SplitAll(a, sep) + SplitAll(b, sep)
  {
    if a != [] {
      assert (a + b)[1..] == a[1..] + b && (a + b)[0] == a[0];
      SplitAllAppend(a[1..], b, sep);
      calc {
        SplitAll(a + b, sep);
        Split(a[0], sep) + SplitAll(a[1..] + b, sep);
        Split(a[0], sep) + (SplitAll(a[1..], sep) + SplitAll(b, sep));
        Split(a[0], sep) + SplitAll(a[1..], sep) + SplitAll(b, sep);
      }
    } else {
      assert a + b == b;
    }
  }

  /** Lines without the separator split into themselves. */
  lemma {:induction false} SplitAllNoSep(ls: seq<string>, sep: char)
    requires forall i :: 0 <= i < |ls| ==> sep !in ls[i]
    ensures SplitAll(ls, sep) == ls
  {
    if ls != [] {
      SplitNoSep(ls[0], sep);
      SplitAllNoSep(ls[1..], sep);
    }
  }

  /** Between lines without the separator, one line x contributes its own pieces. */
  lemma SplitAllAround(a: seq<string>, x: string, b: seq<string>, sep: char)
    requires forall i :: 0 <= i < |a| ==> sep !in a[i]
    requires forall i :: 0 <= i < |b| ==> sep !in b[i]
    ensures SplitAll(a + [x] + b, sep) == a + Split(x, sep) + b
  {
    calc {
      SplitAll(a + [x] + b, sep);
      { SplitAllAppend(a + [x], b, sep); }
      SplitAll(a + [x], sep) + SplitAll(b, sep);
      { SplitAllAppend(a, [x], sep); }
      SplitAll(a, sep) + SplitAll([x], sep) + SplitAll(b, sep);
      { SplitAllNoSep(a, sep); SplitAllNoSep(b, sep); SplitAllOne(x, sep); }
      a + Split(x, sep) + b;
    }
  }

  lemma SplitAllCons(x: string, ls: seq<string>, sep: char)
    ensures SplitAll([x] + ls, sep) == Split(x, sep) + SplitAll(ls, sep)
  {
    assert ([x] + ls)[1..] == ls;
  }

  lemma SplitAllOne(x: string, sep: char)
    ensures SplitAll([x], sep) == Split(x, sep)
  {
    assert [x][1..] == [];
  }

  /** Text written line by line, where only the line x may hold breaks, reads back as the other
      lines around the lines of x. */
  lemma SplitLinesAround(a: seq<string>, x: string, b: seq<string>)
    requires forall i :: 0 <= i < |a| ==> '\n' !in a[i]
    requires forall i :: 0 <= i < |b| ==> '\n' !in b[i]
    ensures Split(Lines(a + [x] + b), '\n') == a + Split(x, '\n') + b + [""]
  {
    SplitLines(a + [x] + b);
    SplitAllAround(a, x, b, '\n');
  }

  lemma SplitAllAround2(a: seq<string>, x: string, b: seq<string>, y: string, c: seq<string>, sep: char)
    requires forall i :: 0 <= i < |a| ==> sep !in a[i]
    requires forall i :: 0 <= i < |b| ==> sep !in b[i]
    requires forall i :: 0 <= i < |c| ==> sep !in c[i]
    ensures SplitAll(a + [x] + b + [y] + c, sep) == (a + Split(x, sep) + b) + (Split(y, sep) + c)
  {
    var l, r := a + [x] + b, [y] + c;
    Regroup5(a, x, b, y, c);
    SplitAllAppend(l, r, sep);
    SplitAllAround(a, x, b, sep);
    SplitAllTail(y, c, sep);
  }

  /** A line x followed by lines without the separator. */
  lemma SplitAllTail(x: string, ls: seq<string>, sep: char)
    requires forall i :: 0 <= i < |ls| ==> sep !in ls[i]
    ensures SplitAll([x] + ls, sep) == Split(x, sep) + ls
  {
    SplitAllCons(x, ls, sep);
    SplitAllNoSep(ls, sep);
  }

  /** The same with two lines x and y that may hold breaks. */
  lemma SplitLinesAround2(a: seq<string>, x: string, b: seq<string>, y: string, c: seq<string>)
    requires forall i :: 0 <= i < |a| ==> '\n' !in a[i]
    requires forall i :: 0 <= i < |b| ==> '\n' !in b[i]
    requires forall i :: 0 <= i < |c| ==> '\n' !in c[i]
    ensures Split(Lines(a + [x] + b + [y] + c), '\n') == a + Split(x, '\n') + b + Split(y, '\n') + c + [""]
  {
    var ls := a + [x] + b + [y] + c;
    var p, q := a + Split(x, '\n') + b, Split(y, '\n');
    calc {
      Split(Lines(ls), '\n');
      { SplitLines(ls); }
      SplitAll(ls, '\n') + [""];
      { SplitAllAround2(a, x, b, y, c, '\n'); }
      (p + (q + c)) + [""];
      { Regroup(p, q, c, [""]); }
      p + q + c + [""];
    }
  }

  lemma Regroup5<T>(a: seq<T>, x: T, b: seq<T>, y: T, c: seq<T>)
    ensures a + [x] + b + [y] + c == (a + [x] + b) + ([y] + c)
  {
  }

  lemma Regroup<T>(p: seq<T>, q: seq<T>, c: seq<T>, d: seq<T>)
    ensures (p + (q + c)) + d == p + q + c + d
  {
  }

  // ---------------------------------------------------------------- numbers

  function DigitChar(d: nat): char
    requires d < 10
  {
    "0123456789"[d]
  }

  predicate IsDigit(c: char) {
    '0' <= c <= '9'
  }

  function DigitValue(c: char): nat
    requires IsDigit(c)
  {
    c as int - '0' as int
  }

  /** The decimal text `str(n)` of a natural number. */
  function NatToString(n: nat): (r: string)
    ensures r != []
    ensures forall i :: 0 <= i < |r| ==> IsDigit(r[i])
  {
    if n < 10 then [DigitChar(n)] else NatToString(n / 10) + [DigitChar(n % 10)]
  }

  /** The value a string of decimal digits denotes. */
  function DecimalValue(s: string): nat
    requires forall i :: 0 <= i < |s| ==> IsDigit(s[i])
  {
    if s == [] then 0 else 10 * DecimalValue(s[..|s| - 1]) + DigitValue(s[|s| - 1])
  }

  /** The decimal text of n reads back as n, and has no superfluous leading zero. */
  lemma {:induction false} NatToStringValue(n: nat)
    ensures DecimalValue(NatToString(n)) == n
    ensures |NatToString(n)| > 1 ==> NatToString(n)[0] != '0'
  {
    var r := NatToString(n);
    if n >= 10 {
      var p := NatToString(n / 10);
      NatToStringValue(n / 10);
      assert r[..|r| - 1] == p;
      assert r[0] == p[0];
      if |p| == 1 {
        assert n / 10 == DigitValue(p[0]);
      }
    }
  }
}
