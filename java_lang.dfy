/** The few behaviours of the Java runtime that the screen scraper and the file
    transfer rely on: the unchecked exceptions of List.get, String.substring and
    Integer.parseInt, String.trim, String.indexOf, String.startsWith, 32-bit int
    arithmetic and String.format("%,7d"). Strings are sequences of Unicode
    scalar values; Java indexes UTF-16 units, which differ only for characters
    outside the Basic Multilingual Plane. */
module JavaLang {

  /** The unchecked exceptions the modelled code can raise. */
  datatype Failure = IndexOutOfBounds | StringIndexOutOfBounds | NumberFormat

  /** A value, or the exception that was thrown instead of computing it. */
  datatype Result<+T> = Ok(value: T) | Err(failure: Failure) {
    predicate IsFailure() { Err? }
    function PropagateFailure<U>(): Result<U>
      requires Err?
    {
      Err(failure)
    }
    function Extract(): T
      requires Ok?
    {
      value
    }
  }

  datatype Option<+T> = None | Some(value: T)

  // ---------------------------------------------------------------------------
  // List.get

  /** java.util.List.get: the element at index i, or IndexOutOfBoundsException. */
  function Get<T>(xs: seq<T>, i: int): (r: Result<T>)
    ensures r.Ok? <==> 0 <= i < |xs|
    ensures r.Ok? ==> r.value == xs[i]
    ensures r.Err? ==> r.failure == IndexOutOfBounds
  {
    if 0 <= i < |xs| then Ok(xs[i]) else Err(IndexOutOfBounds)
  }

  // ---------------------------------------------------------------------------
  // String.trim

  /** String.trim treats every character at or below U+0020 as white space. */
  predicate IsSpace(c: char) { c <= ' ' }

  /** String.trim(...).isEmpty(): nothing but white space. */
  predicate Blank(s: string) {
    forall k :: 0 <= k < |s| ==> IsSpace(s[k])
  }

  /** The number of white-space characters at the start of s. */
  function LeadingSpaces(s: string): (n: nat)
    ensures n <= |s|
    ensures forall k :: 0 <= k < n ==> IsSpace(s[k])
    ensures n < |s| ==> !IsSpace(s[n])
  {
    if |s| > 0 && IsSpace(s[0]) then 1 + LeadingSpaces(s[1..]) else 0
  }

  /** The end of s once the white space after position st is dropped. */
  function TrimmedEnd(s: string, st: nat): (e: nat)
    requires st <= |s|
    ensures st <= e <= |s|
    ensures forall k :: e <= k < |s| ==> IsSpace(s[k])
    ensures st < e ==> !IsSpace(s[e - 1])
    decreases |s|
  {
    if st < |s| && IsSpace(s[|s| - 1]) then TrimmedEnd(s[..|s| - 1], st) else |s|
  }

  /** String.trim: s without its leading and trailing white space. */
  function Trim(s: string): (r: string)
    ensures |r| <= |s|
  {
    var st := LeadingSpaces(s);
    s[st..TrimmedEnd(s, st)]
  }

  /** What String.trim leaves: the piece of s between its leading and its
      trailing white space, empty exactly when s is blank, and otherwise
      starting and ending with something other than white space. */
  lemma TrimShape(s: string)
    ensures var r := Trim(s);
      LeadingSpaces(s) + |r| <= |s| &&
      r == s[LeadingSpaces(s)..LeadingSpaces(s) + |r|] &&
      (forall k :: 0 <= k < LeadingSpaces(s) ==> IsSpace(s[k])) &&
      (forall k :: LeadingSpaces(s) + |r| <= k < |s| ==> IsSpace(s[k])) &&
      (r == [] <==> Blank(s)) &&
      (r != [] ==> !IsSpace(r[0]) && !IsSpace(r[|r| - 1]))
  {
    var st := LeadingSpaces(s);
    assert st < |s| ==> !IsSpace(s[st]);
  }

  /** Trimming a string whose ends are not white space changes nothing, so
      trimming twice is trimming once. */
  lemma {:induction false} TrimOfTrimmed(s: string)
    requires s == [] || (!IsSpace(s[0]) && !IsSpace(s[|s| - 1]))
    ensures Trim(s) == s
  {
    if s != [] {
      assert LeadingSpaces(s) == 0;
      assert TrimmedEnd(s, 0) == |s|;
    }
  }

  lemma TrimIdempotent(s: string)
    ensures Trim(Trim(s)) == Trim(s)
  {
    TrimOfTrimmed(Trim(s));
  }

  /** Trimming a string framed by white space on both sides gives its core back. */
  lemma {:induction false} TrimPadded(pad: string, core: string)
    requires Blank(pad)
    requires core != [] && !IsSpace(core[0]) && !IsSpace(core[|core| - 1])
    ensures Trim(pad + core) == core
    decreases |pad|
  {
    if pad == [] {
      assert pad + core == core;
      TrimOfTrimmed(core);
    } else {
      assert (pad + core)[1..] == pad[1..] + core;
      TrimPadded(pad[1..], core);
      assert LeadingSpaces(pad + core) == 1 + LeadingSpaces(pad[1..] + core);
      var s := pad + core;
      var t := pad[1..] + core;
      var st := LeadingSpaces(t);
      assert st == |pad| - 1 by {
        assert t[|pad| - 1] == core[0];
        LeadingSpacesOfPadded(pad[1..], core);
      }
      TrimmedEndShift(s, st + 1);
    }
  }

  lemma {:induction false} LeadingSpacesOfPadded(pad: string, core: string)
    requires Blank(pad)
    requires core != [] && !IsSpace(core[0])
    ensures LeadingSpaces(pad + core) == |pad|
    decreases |pad|
  {
    if pad == [] {
      assert pad + core == core;
    } else {
      assert (pad + core)[1..] == pad[1..] + core;
      LeadingSpacesOfPadded(pad[1..], core);
    }
  }

  /** Trimming drops a space after a trimmed string. */
  lemma TrimTrailingSpace(core: string)
    requires core == [] || (!IsSpace(core[0]) && !IsSpace(core[|core| - 1]))
    ensures Trim(core + " ") == core
  {
    var s := core + " ";
    if core == [] {
      assert Blank(s);
    } else {
      assert LeadingSpaces(s) == 0;
      assert s[..|s| - 1] == core;
      TrimmedEndShift(core, 0);
      assert TrimmedEnd(s, 0) == |core|;
      assert s[0..|core|] == core;
    }
  }

  lemma {:induction false} TrimmedEndShift(s: string, st: nat)
    requires st < |s| && !IsSpace(s[|s| - 1])
    ensures TrimmedEnd(s, st) == |s|
  {
  }

  // ---------------------------------------------------------------------------
  // String.startsWith, String.indexOf, String.substring

  /** String.startsWith. */
  predicate StartsWith(s: string, prefix: string) {
    |prefix| <= |s| && s[..|prefix|] == prefix
  }

  /** pat occurs in s at position k. */
  predicate OccursAt(s: string, pat: string, k: int) {
    0 <= k && k + |pat| <= |s| && s[k..k + |pat|] == pat
  }

  /** String.indexOf(pat, from): the first position at or after from where pat
      occurs, or -1. */
  function IndexOfFrom(s: string, pat: string, from: nat): (r: int)
    requires from <= |s|
    ensures r == -1 || (from <= r && OccursAt(s, pat, r))
    decreases |s| - from
  {
    if from + |pat| > |s| then -1
    else if s[from..from + |pat|] == pat then from
    else IndexOfFrom(s, pat, from + 1)
  }

  /** IndexOfFrom finds the first occurrence at or after from, and gives -1
      only when there is none. */
  lemma {:induction false} IndexOfFromFirst(s: string, pat: string, from: nat)
    requires from <= |s|
    ensures var r := IndexOfFrom(s, pat, from);
      (r == -1 ==> forall k :: from <= k && OccursAt(s, pat, k) ==> false) &&
      (r >= 0 ==> forall k :: from <= k < r ==> !OccursAt(s, pat, k))
    decreases |s| - from
  {
    if from + |pat| <= |s| && s[from..from + |pat|] != pat {
      IndexOfFromFirst(s, pat, from + 1);
    }
  }

  /** String.indexOf(pat): the first position where pat occurs in s, or -1. */
  function IndexOf(s: string, pat: string): (r: int)
    ensures r == -1 || (0 <= r && OccursAt(s, pat, r))
  {
    IndexOfFrom(s, pat, 0)
  }

  /** String.indexOf gives -1 exactly when pat does not occur, and otherwise
      the first position where it does. */
  lemma IndexOfFirst(s: string, pat: string)
    ensures var r := IndexOf(s, pat);
      (r == -1 <==> forall k :: OccursAt(s, pat, k) ==> false) &&
      (r >= 0 ==> forall k :: 0 <= k < r ==> !OccursAt(s, pat, k))
  {
    IndexOfFromFirst(s, pat, 0);
    assert forall k :: OccursAt(s, pat, k) ==> 0 <= k;
  }

  /** String.substring(b, e): StringIndexOutOfBoundsException unless
      0 <= b <= e <= length. */
  function Substring(s: string, b: int, e: int): (r: Result<string>)
    ensures r.Ok? <==> 0 <= b <= e <= |s|
    ensures r.Ok? ==> r.value == s[b..e]
    ensures r.Err? ==> r.failure == StringIndexOutOfBounds
  {
    if 0 <= b <= e <= |s| then Ok(s[b..e]) else Err(StringIndexOutOfBounds)
  }

  /** String.substring(b): everything from position b on. */
  function SubstringFrom(s: string, b: int): (r: Result<string>)
    ensures r.Ok? <==> 0 <= b <= |s|
    ensures r.Ok? ==> r.value == s[b..]
  {
    Substring(s, b, |s|)
  }

  // ---------------------------------------------------------------------------
  // 32-bit int arithmetic

  const MIN_INT: int := -0x8000_0000
  const MAX_INT: int := 0x7fff_ffff

  predicate IsInt32(x: int) { MIN_INT <= x <= MAX_INT }

  /** The value a Java int holds after an arithmetic result x (two's complement
      wrap-around). */
  function Wrap32(x: int): (r: int)
    ensures IsInt32(r)
    ensures IsInt32(x) ==> r == x
  {
    (x - MIN_INT) % 0x1_0000_0000 + MIN_INT
  }

  /** Wrapping changes a value by a multiple of 2^32 only. */
  lemma Wrap32Congruent(x: int)
    ensures (Wrap32(x) - x) % 0x1_0000_0000 == 0
  {
  }

  /** Math.min on ints. */
  function Min(a: int, b: int): (r: int)
    ensures r <= a && r <= b && (r == a || r == b)
  {
    if a <= b then a else b
  }

  // ---------------------------------------------------------------------------
  // Integer.parseInt and String.format("%,7d")

  predicate IsDigit(c: char) { '0' <= c <= '9' }

  predicate AllDigits(s: string) {
    forall k :: 0 <= k < |s| ==> IsDigit(s[k])
  }

  function DigitValue(c: char): (d: nat)
    requires IsDigit(c)
    ensures d < 10
  {
    c as int - '0' as int
  }

  function DigitChar(d: nat): (c: char)
    requires d < 10
    ensures IsDigit(c) && DigitValue(c) == d
  {
    ('0' as int + d) as char
  }

  /** The value of a string of decimal digits, most significant first. */
  function DigitsValue(s: string): nat
    requires AllDigits(s)
  {
    if s == [] then 0 else DigitsValue(s[..|s| - 1]) * 10 + DigitValue(s[|s| - 1])
  }

  /** Integer.parseInt(s) in radix 10: an optional sign followed by at least one
      digit, with a value that fits an int; NumberFormatException otherwise. */
  function ParseInt(s: string): (r: Result<int>)
    ensures r.Ok? ==> IsInt32(r.value)
    ensures r.Err? ==> r.failure == NumberFormat
  {
    if |s| == 0 then Err(NumberFormat)
    else
      var digits := if s[0] == '-' || s[0] == '+' then s[1..] else s;
      if digits == [] || !AllDigits(digits) then Err(NumberFormat)
      else
        var v := if s[0] == '-' then -(DigitsValue(digits) as int) else DigitsValue(digits);
        if IsInt32(v) then Ok(v) else Err(NumberFormat)
  }

  /** The decimal digits of n without leading zeros (Integer.toString for n >= 0). */
  function Digits(n: nat): (s: string)
    ensures s != [] && AllDigits(s)
    ensures DigitsValue(s) == n
    ensures s[0] != '0' || n == 0
  {
    if n < 10 then [DigitChar(n)]
    else
      var s := Digits(n / 10) + [DigitChar(n % 10)];
      assert s[..|s| - 1] == Digits(n / 10);
      s
  }

  /** A digit string with a ',' between every group of three, counted from the
      right: the "," flag of java.util.Formatter with the US locale. */
  function Grouped(ds: string): (r: string)
    decreases |ds|
  {
    if |ds| <= 3 then ds else Grouped(ds[..|ds| - 3]) + "," + ds[|ds| - 3..]
  }

  /** s with every ',' removed. */
  function WithoutCommas(s: string): (r: string)
  {
    if s == [] then [] else WithoutCommas(s[..|s| - 1]) + (if s[|s| - 1] == ',' then "" else [s[|s| - 1]])
  }

  lemma WithoutCommasAppend(a: string, b: string)
    ensures WithoutCommas(a + b) == WithoutCommas(a) + WithoutCommas(b)
    decreases |b|
  {
    if b == [] {
      assert a + b == a;
    } else {
      assert (a + b)[..|a + b| - 1] == a + b[..|b| - 1];
      WithoutCommasAppend(a, b[..|b| - 1]);
    }
  }

  lemma {:induction false} WithoutCommasOfDigits(ds: string)
    requires AllDigits(ds)
    ensures WithoutCommas(ds) == ds
  {
    if ds != [] {
      WithoutCommasOfDigits(ds[..|ds| - 1]);
    }
  }

  /** Removing the separators from a grouped digit string gives the digits back. */
  lemma {:induction false} UngroupGrouped(ds: string)
    requires AllDigits(ds)
    ensures WithoutCommas(Grouped(ds)) == ds
    decreases |ds|
  {
    if |ds| <= 3 {
      WithoutCommasOfDigits(ds);
    } else {
      var hi, lo := ds[..|ds| - 3], ds[|ds| - 3..];
      UngroupGrouped(hi);
      UngroupGroup(Grouped(hi), lo);
      assert hi + lo == ds;
    }
  }

  /** Dropping the separators of a group after a comma leaves its digits. */
  lemma UngroupGroup(g: string, lo: string)
    requires AllDigits(lo)
    ensures WithoutCommas(g + "," + lo) == WithoutCommas(g) + lo
  {
    WithoutCommasAppend(g + ",", lo);
    WithoutCommasAppend(g, ",");
    WithoutCommasOfDigits(lo);
    assert WithoutCommas(",") == "";
  }

  lemma {:induction false} GroupedEnds(ds: string)
    requires ds != [] && AllDigits(ds)
    ensures Grouped(ds) != [] && IsDigit(Grouped(ds)[0]) && IsDigit(Grouped(ds)[|Grouped(ds)| - 1])
    decreases |ds|
  {
    if |ds| > 3 {
      GroupedEnds(ds[..|ds| - 3]);
    }
  }

  /** s preceded by spaces up to the given width (right-justified). */
  function PadLeft(s: string, width: nat): (r: string)
    ensures |r| == if |s| < width then width else |s|
    ensures r == seq(|r| - |s|, _ => ' ') + s
  {
    seq(if |s| < width then width - |s| else 0, _ => ' ') + s
  }

  /** The text "%,d" prints for n: the sign and the grouped digits. */
  function GroupedDecimal(n: int): (r: string)
  {
    if n < 0 then "-" + Grouped(Digits(-n)) else Grouped(Digits(n))
  }

  /** String.format("%,7d", n): the grouped decimal right-justified in seven
      columns. */
  function FormatGrouped7(n: int): (r: string)
    ensures |r| >= 7
  {
    PadLeft(GroupedDecimal(n), 7)
  }

  /** The padding "%,7d" adds is exactly what trim removes. */
  lemma TrimFormatted(n: int)
    ensures Trim(FormatGrouped7(n)) == GroupedDecimal(n)
  {
    var m: nat := if n < 0 then -n else n;
    var g := Grouped(Digits(m));
    GroupedEnds(Digits(m));
    var body := GroupedDecimal(n);
    var pad := seq(|FormatGrouped7(n)| - |body|, _ => ' ');
    assert FormatGrouped7(n) == pad + body;
    assert body[0] == (if n < 0 then '-' else g[0]);
    assert body[|body| - 1] == g[|g| - 1];
    TrimPadded(pad, body);
  }

  /** Without its separators, the "%,d" text is the sign and the plain digits. */
  lemma UngroupDecimal(n: int)
    ensures WithoutCommas(GroupedDecimal(n)) == if n < 0 then "-" + Digits(-n) else Digits(n)
  {
    var m: nat := if n < 0 then -n else n;
    UngroupGrouped(Digits(m));
    if n < 0 {
      WithoutCommasAppend("-", Grouped(Digits(m)));
      assert "-"[..0] == [];
      assert WithoutCommas("-") == "-";
    }
  }

  /** parseInt reads back the sign and digits of any int. */
  lemma ParseDecimal(n: int)
    requires IsInt32(n)
    ensures ParseInt(if n < 0 then "-" + Digits(-n) else Digits(n)) == Ok(n)
  {
    if n < 0 {
      var t := "-" + Digits(-n);
      assert t[0] == '-' && t[1..] == Digits(-n);
    } else {
      var ds := Digits(n);
      assert ds[0] != '-' && ds[0] != '+';
    }
  }

  /** Round trip between formatting and parsing: once the padding is trimmed and
      the group separators are dropped, parseInt reads back the number that
      "%,7d" printed. */
  lemma FormatThenParse(n: int)
    requires IsInt32(n)
    ensures ParseInt(WithoutCommas(Trim(FormatGrouped7(n)))) == Ok(n)
  {
    TrimFormatted(n);
    UngroupDecimal(n);
    ParseDecimal(n);
  }
}
