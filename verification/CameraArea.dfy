/** A camera focus area: parsed from and printed as "(left,top,right,bottom,weight)", with
  * coordinates from -1000 to 1000 that are mapped to picture positions.
  */
module CameraArea {
  import opened Options

  const INT_MIN := -0x8000_0000
  const INT_MAX := 0x7FFF_FFFF

  predicate IsInt(n: int) { INT_MIN <= n <= INT_MAX }

  // -------- C strings and integers

  /** The character at a position of a C string, NUL at its end. */
  function At(s: string, i: nat): char { if i < |s| then s[i] else '\0' }

  predicate IsSpace(c: char) { c in " \t\n\r" || c == 11 as char || c == 12 as char }
  predicate IsDigit(c: char) { '0' <= c <= '9' }

  function SkipSpace(s: string, pos: nat): (end: nat)
    ensures end >= pos && (!IsSpace(At(s, pos)) ==> end == pos)
    decreases |s| - pos
  {
    if pos < |s| && IsSpace(s[pos]) then SkipSpace(s, pos + 1) else pos
  }

  /** The number of which `acc` is what has been read, and the position of its end. */
  function ScanDigits(s: string, pos: nat, acc: nat): (nat, nat)
    decreases |s| - pos
  {
    if pos < |s| && IsDigit(s[pos]) then ScanDigits(s, pos + 1, acc * 10 + (s[pos] - '0') as nat) else (acc, pos)
  }

  function Saturated(n: int): (r: int)
    ensures IsInt(r) && (IsInt(n) ==> r == n)
  {
    if n < INT_MIN then INT_MIN else if n > INT_MAX then INT_MAX else n
  }

  /** strtol in base 10 where long has 32 bits: the value, and the position after the number, or
    * 0 and the starting position if there is none. */
  function Strtol(s: string, pos: nat): (r: (int, nat))
    ensures IsInt(r.0)
  {
    var start := SkipSpace(s, pos);
    var sign := At(s, start);
    var first := if sign == '-' || sign == '+' then start + 1 else start;
    if !IsDigit(At(s, first)) then (0, pos)
    else
      var (n, end) := ScanDigits(s, first, 0);
      (Saturated(if sign == '-' then 0 - n else n), end)
  }

  /** printf's %d. */
  function Decimal(n: int): string {
    if n < 0 then "-" + Digits(-n) else Digits(n)
  }

  function Digits(n: nat): (s: string)
    ensures s != [] && forall c :: c in s ==> IsDigit(c)
  {
    (if n < 10 then "" else Digits(n / 10)) + ['0' + (n % 10) as char]
  }

  /** C's division truncates toward zero. */
  function TruncDiv(a: int, b: nat): int
    requires b > 0
  {
    if a >= 0 then a / b else -(-a / b)
  }

  // -------- areas

  datatype Area = Area(left: int, top: int, right: int, bottom: int, weight: int)

  /** k numbers, separated by commas and closed by a parenthesis. */
  function ParseFields(s: string, pos: nat, k: nat): (fields: Option<seq<int>>)
    requires k > 0
    ensures fields.Some? ==> |fields.value| == k && forall n :: n in fields.value ==> IsInt(n)
    decreases k
  {
    var (n, end) := Strtol(s, pos);
    if At(s, end) != (if k == 1 then ')' else ',') then None
    else if k == 1 then Some([n])
    else
      var rest := ParseFields(s, end + 1, k - 1);
      if rest.None? then None else Some([n] + rest.value)
  }

  function PrintFields(fields: seq<int>): string
    requires fields != []
  {
    if |fields| == 1 then Decimal(fields[0]) + ")" else Decimal(fields[0]) + "," + PrintFields(fields[1..])
  }

  function AreaOf(fields: Option<seq<int>>): Area
    requires fields.Some? ==> |fields.value| == 5
  {
    match fields
    case None => Area(0, 0, 0, 0, 0)
    case Some(f) => Area(f[0], f[1], f[2], f[3], f[4])
  }

  class SecCameraArea {
    var left: int
    var top: int
    var right: int
    var bottom: int
    var weight: int

    function Value(): Area
      reads this
    {
      Area(left, top, right, bottom, weight)
    }

    /** The constructor from five numbers. */
    constructor (area: Area)
      ensures Value() == area
    {
      left, top, right, bottom, weight := area.left, area.top, area.right, area.bottom, area.weight;
    }

    /** The constructor from a string: zeros if it starts like an area but is malformed; a string
      * that does not start with a parenthesis leaves the fields undefined. */
    constructor FromString(str: Option<string>)
      ensures str.Some? && At(str.value, 0) == '(' ==> Value() == AreaOf(ParseFields(str.value, 1, 5))
    {
      new;
      hide Strtol, At;
      if str.None? || At(str.value, 0) != '(' {
        return;
      }
      var s := str.value;
      var end;
      left, end := Number(s, 1);
      var ok := At(s, end) == ',';
      if ok {
        top, end := Number(s, end + 1);
        ok := At(s, end) == ',';
      }
      if ok {
        right, end := Number(s, end + 1);
        ok := At(s, end) == ',';
      }
      if ok {
        bottom, end := Number(s, end + 1);
        ok := At(s, end) == ',';
      }
      if ok {
        weight, end := Number(s, end + 1);
        ok := At(s, end) == ')';
      }
      if !ok {
        left, top, right, bottom, weight := 0, 0, 0, 0, 0;
      }
    }

    static method Number(s: string, pos: nat) returns (n: int, end: nat)
      ensures (n, end) == Strtol(s, pos)
    {
      var r := Strtol(s, pos);
      return r.0, r.1;
    }

    /** toString8. */
    function ToString8(): (s: string)
      reads this
      ensures s == "(" + Decimal(left) + "," + Decimal(top) + "," + Decimal(right) + "," + Decimal(bottom) + ","
                   + Decimal(weight) + ")"
    {
      FieldsPrinted(left, top, right, bottom, weight);
      "(" + PrintFields([left, top, right, bottom, weight])
    }

    /** getX: for coordinates in range, the column of the picture at the area's middle. */
    function GetX(width: nat): (x: int)
      reads this
      ensures -1000 <= left <= 1000 && -1000 <= right <= 1000 ==> 0 <= x <= width && InMiddle(x, left, right, width)
      ensures left == -1000 && right == 1000 ==> x == width / 2
    {
      PositionInRange(left, right, width);
      Position(left + right, width)
    }

    function GetY(height: nat): (y: int)
      reads this
      ensures -1000 <= top <= 1000 && -1000 <= bottom <= 1000 ==> 0 <= y <= height && InMiddle(y, top, bottom, height)
      ensures top == -1000 && bottom == 1000 ==> y == height / 2
    {
      PositionInRange(top, bottom, height);
      Position(top + bottom, height)
    }
  }

  /** `p` is the position, rounded down, of the middle between two coordinates, in a picture of this
    * size; a middle between two whole coordinates is taken as the one nearer the centre. */
  predicate InMiddle(p: int, a: int, b: int, size: nat) {
    var twice := 2000 + a + b + (if (a + b) % 2 == 0 then 0 else if a + b > 0 then -1 else 1);
    twice * size - 4000 < 4000 * p <= twice * size
  }

  /** The middle of two coordinates with this sum, in a picture of this size. */
  function Position(sum: int, size: nat): int {
    TruncDiv((TruncDiv(sum, 2) + 1000) * size, 2000)
  }

  lemma FieldsPrinted(a: int, b: int, c: int, d: int, e: int)
    ensures "(" + PrintFields([a, b, c, d, e])
            == "(" + Decimal(a) + "," + Decimal(b) + "," + Decimal(c) + "," + Decimal(d) + "," + Decimal(e) + ")"
  {
    hide Decimal;
    assert [a, b, c, d, e][1..] == [b, c, d, e] && [b, c, d, e][1..] == [c, d, e];
    assert [c, d, e][1..] == [d, e] && [d, e][1..] == [e];
    var last := Decimal(e) + ")";
    assert PrintFields([d, e]) == Decimal(d) + "," + last;
    assert PrintFields([c, d, e]) == Decimal(c) + "," + PrintFields([d, e]);
    assert PrintFields([b, c, d, e]) == Decimal(b) + "," + PrintFields([c, d, e]);
  }

  // -------- what strtol reads

  predicate AllDigits(digits: string) { forall k :: 0 <= k < |digits| ==> '0' <= digits[k] <= '9' }
  predicate AllBlank(blank: string) {
    forall k :: 0 <= k < |blank| ==> blank[k] == ' ' || 9 as char <= blank[k] <= 13 as char
  }

  /** The number that decimal digits stand for, leading zeros allowed. */
  function ValueOf(digits: string): nat
    requires AllDigits(digits)
  {
    if digits == "" then 0
    else ValueOf(digits[..|digits| - 1]) * 10 + (digits[|digits| - 1] - '0') as nat
  }

  /** The text stands at this position. */
  predicate Stands(s: string, pos: nat, text: string) {
    pos + |text| <= |s| && forall k :: 0 <= k < |text| ==> s[pos + k] == text[k]
  }

  lemma {:induction false} ValueScanned(s: string, pos: nat, digits: string)
    requires Stands(s, pos, digits) && AllDigits(digits)
    ensures ScanDigits(s, pos, 0) == ScanDigits(s, pos + |digits|, ValueOf(digits))
    decreases |digits|
  {
    if digits != "" {
      var n := |digits| - 1;
      assert s[pos + n] == digits[n];
      ValueScanned(s, pos, digits[..n]);
    }
  }

  lemma {:induction false} BlankSkipped(s: string, pos: nat, blank: string)
    requires Stands(s, pos, blank) && AllBlank(blank)
    ensures SkipSpace(s, pos) == SkipSpace(s, pos + |blank|)
    decreases |blank|
  {
    if blank != "" {
      assert s[pos + 0] == blank[0];
      BlankIsSpace(s[pos]);
      var rest := blank[1..];
      forall k | 0 <= k < |rest| ensures s[pos + 1 + k] == rest[k] {
        assert s[pos + (k + 1)] == blank[k + 1];
      }
      BlankSkipped(s, pos + 1, rest);
    }
  }

  lemma BlankIsSpace(c: char)
    ensures IsSpace(c) <==> c == ' ' || 9 as char <= c <= 13 as char
  {
    assert '\t' == 9 as char && '\n' == 10 as char && '\r' == 13 as char;
  }

  /** White space, a sign if any, and digits are read as the number they stand for, as far as a long can
    * hold it, and up to the first other character. */
  lemma StrtolReads(s: string, pos: nat, blank: string, sign: string, digits: string)
    requires AllBlank(blank) && (sign == "" || sign == "+" || sign == "-") && digits != "" && AllDigits(digits)
    requires Stands(s, pos, blank) && Stands(s, pos + |blank|, sign) && Stands(s, pos + |blank| + |sign|, digits)
    requires var end := pos + |blank| + |sign| + |digits|; end < |s| ==> !('0' <= s[end] <= '9')
    ensures var n := if sign == "-" then 0 - ValueOf(digits) else ValueOf(digits);
            Strtol(s, pos) == (if n < -0x8000_0000 then -0x8000_0000 else if n > 0x7FFF_FFFF then 0x7FFF_FFFF else n,
                               pos + |blank| + |sign| + |digits|)
  {
    var start, first := pos + |blank|, pos + |blank| + |sign|;
    assert s[first + 0] == digits[0];
    if sign != "" { assert s[start + 0] == sign[0]; }
    SkippedTo(s, pos, blank);
    ValueScanned(s, first, digits);
    ScanEnds(s, first + |digits|, ValueOf(digits));
    hide ScanDigits, SkipSpace, ValueOf, IsSpace, Stands, AllDigits, AllBlank;
  }

  /** Blanks are skipped up to what is no blank. */
  lemma SkippedTo(s: string, pos: nat, blank: string)
    requires AllBlank(blank) && Stands(s, pos, blank)
    requires var c := At(s, pos + |blank|); c == '+' || c == '-' || '0' <= c <= '9' || !IsSpace(c)
    ensures SkipSpace(s, pos) == pos + |blank|
  {
    BlankSkipped(s, pos, blank);
    NoSpace(At(s, pos + |blank|));
    PlusNoSpace();
  }

  lemma PlusNoSpace()
    ensures !IsSpace('+')
  {}

  /** Without a digit there, nothing is read. */
  lemma StrtolFails(s: string, pos: nat, blank: string, sign: string)
    requires AllBlank(blank) && (sign == "" || sign == "+" || sign == "-")
    requires Stands(s, pos, blank) && Stands(s, pos + |blank|, sign)
    requires var c := At(s, pos + |blank| + |sign|);
             !('0' <= c <= '9') && (sign == "" ==> c != '+' && c != '-' && !IsSpace(c))
    ensures Strtol(s, pos) == (0, pos)
  {
    if sign != "" { assert s[pos + |blank| + 0] == sign[0]; }
    SkippedTo(s, pos, blank);
    hide ScanDigits, SkipSpace, IsSpace, Stands, AllBlank;
  }

  /** Where the i-th of the numbers begins, one character after the end of the one before. */
  function NumberStart(s: string, pos: nat, i: nat): nat {
    if i == 0 then pos else Strtol(s, NumberStart(s, pos, i - 1)).1 + 1
  }

  lemma {:induction false} NextStart(s: string, pos: nat, i: nat)
    ensures NumberStart(s, pos, i + 1) == NumberStart(s, Strtol(s, pos).1 + 1, i)
  {
    hide Strtol;
    if i > 0 { NextStart(s, pos, i - 1); }
  }

  /** The i-th of k numbers is followed by what separates or closes them. */
  predicate EndsWell(s: string, pos: nat, k: nat, i: nat) {
    At(s, Strtol(s, NumberStart(s, pos, i)).1) == if i + 1 == k then ')' else ','
  }

  /** The fields are parsed exactly if each number but the last is followed by a comma, and the last by a
    * parenthesis; and then they are the numbers in order. */
  lemma {:induction false} ParsedIff(s: string, pos: nat, k: nat)
    requires k > 0
    ensures ParseFields(s, pos, k).Some? <==> forall i :: 0 <= i < k ==> EndsWell(s, pos, k, i)
    ensures ParseFields(s, pos, k).Some? ==>
              forall i :: 0 <= i < k ==> ParseFields(s, pos, k).value[i] == Strtol(s, NumberStart(s, pos, i)).0
    decreases k
  {
    hide Strtol, At, NumberStart, EndsWell;
    FirstEnds(s, pos, k);
    if k > 1 {
      var next, rest := Strtol(s, pos).1 + 1, k - 1;
      ParsedIff(s, next, rest);
      RestEnds(s, pos, k, next, rest);
      var fields := ParseFields(s, pos, k);
      if fields.Some? {
        forall i | 0 <= i < k ensures fields.value[i] == Strtol(s, NumberStart(s, pos, i)).0 {
          if i > 0 { NextStart(s, pos, i - 1); }
        }
      }
    }
  }

  /** All numbers end well exactly if the first does and the rest do. */
  lemma RestEnds(s: string, pos: nat, k: nat, next: nat, rest: nat)
    requires k == rest + 1 && next == Strtol(s, pos).1 + 1
    ensures (forall i :: 0 <= i < k ==> EndsWell(s, pos, k, i)) <==>
            EndsWell(s, pos, k, 0) && forall i :: 0 <= i < rest ==> EndsWell(s, next, rest, i)
  {
    forall i: nat ensures EndsWell(s, next, rest, i) <==> EndsWell(s, pos, k, i + 1) { NextStart(s, pos, i); }
    hide EndsWell;
    if EndsWell(s, pos, k, 0) && forall i :: 0 <= i < rest ==> EndsWell(s, next, rest, i) {
      forall i | 0 <= i < k ensures EndsWell(s, pos, k, i) {
        if i > 0 {
          var j := i - 1;
          assert EndsWell(s, next, rest, j) && j + 1 == i;
        }
      }
    }
    if forall i :: 0 <= i < k ==> EndsWell(s, pos, k, i) {
      forall i | 0 <= i < rest ensures EndsWell(s, next, rest, i) { assert EndsWell(s, pos, k, i + 1); }
    }
  }

  lemma FirstEnds(s: string, pos: nat, k: nat)
    requires k > 0
    ensures NumberStart(s, pos, 0) == pos
    ensures EndsWell(s, pos, k, 0) <==> At(s, Strtol(s, pos).1) == if k == 1 then ')' else ','
  {}

  // -------- printing and parsing

  lemma {:induction false} DigitsScanned(s: string, pos: nat, n: nat)
    requires pos + |Digits(n)| <= |s| && forall k :: 0 <= k < |Digits(n)| ==> s[pos + k] == Digits(n)[k]
    ensures ScanDigits(s, pos, 0) == ScanDigits(s, pos + |Digits(n)|, n)
    decreases n
  {
    var d := Digits(n);
    hide ScanDigits;
    assert s[pos + (|d| - 1)] == d[|d| - 1];
    LastDigit(s, pos + |d| - 1, n);
    if n >= 10 {
      forall k | 0 <= k < |d| - 1 ensures s[pos + k] == Digits(n / 10)[k] {
        assert s[pos + k] == d[k];
      }
      DigitsScanned(s, pos, n / 10);
    }
  }

  lemma LastDigit(s: string, last: nat, n: nat)
    requires last < |s| && s[last] == '0' + (n % 10) as char
    ensures ScanDigits(s, last, n / 10) == ScanDigits(s, last + 1, n)
  {
    assert n / 10 * 10 + n % 10 == n;
  }

  lemma DecimalScanned(s: string, pos: nat, n: int)
    requires IsInt(n) && pos + |Decimal(n)| <= |s| && s[pos..pos + |Decimal(n)|] == Decimal(n)
    requires !IsDigit(At(s, pos + |Decimal(n)|))
    ensures Strtol(s, pos) == (n, pos + |Decimal(n)|)
  {
    hide ScanDigits, Digits, IsSpace, Saturated;
    var first, m: nat := if n < 0 then pos + 1 else pos, if n < 0 then -n else n;
    var end := pos + |Decimal(n)|;
    assert s[pos] == s[pos..end][0];
    assert s[first..end] == Digits(m) by {
      assert s[first..end] == s[pos..end][first - pos..];
    }
    forall k | 0 <= k < |Digits(m)| ensures s[first + k] == Digits(m)[k] {
      assert s[first + k] == s[first..end][k];
    }
    DigitsScanned(s, first, m);
    assert s[first] == Digits(m)[0] && Digits(m)[0] in Digits(m) by { assert s[first] == s[first..end][0]; }
    NoSpace(s[first]);
    ScanEnds(s, end, m);
  }

  lemma NoSpace(c: char)
    ensures IsDigit(c) ==> !IsSpace(c) && c != '-' && c != '+'
    ensures !IsSpace('-')
  {}

  lemma ScanEnds(s: string, end: nat, n: nat)
    requires !IsDigit(At(s, end))
    ensures ScanDigits(s, end, n) == (n, end)
  {}

  /** The first number is read, and what follows it is a comma and the rest, or the parenthesis. */
  lemma HeadParsed(s: string, pos: nat, fields: seq<int>)
    requires fields != [] && IsInt(fields[0]) && pos <= |s| && s[pos..] == PrintFields(fields)
    ensures var end := pos + |Decimal(fields[0])|;
            && Strtol(s, pos) == (fields[0], end) && end < |s|
            && At(s, end) == (if |fields| == 1 then ')' else ',')
            && (|fields| > 1 ==> s[end + 1..] == PrintFields(fields[1..]))
  {
    hide Strtol, Decimal, IsDigit;
    var text := Decimal(fields[0]);
    var end := pos + |text|;
    var tail := if |fields| == 1 then ")" else "," + PrintFields(fields[1..]);
    assert s[pos..] == text + tail;
    assert s[pos..end] == s[pos..][..|text|] == text;
    assert s[end..] == s[pos..][|text|..] == tail;
    assert s[end] == tail[0];
    assert !IsDigit(At(s, end)) by { Separators(); }
    DecimalScanned(s, pos, fields[0]);
    if |fields| > 1 { assert s[end + 1..] == s[end..][1..]; }
  }

  lemma Separators()
    ensures !IsDigit(',') && !IsDigit(')')
  {}

  /** Parsing what was printed gives back the fields. */
  lemma {:induction false} FieldsParsed(s: string, pos: nat, fields: seq<int>)
    requires fields != [] && forall n :: n in fields ==> IsInt(n)
    requires pos <= |s| && s[pos..] == PrintFields(fields)
    ensures ParseFields(s, pos, |fields|) == Some(fields)
    decreases |fields|
  {
    hide Strtol, Decimal, PrintFields, IsInt;
    HeadParsed(s, pos, fields);
    if |fields| == 1 {
      assert fields == [fields[0]];
    } else {
      FieldsParsed(s, pos + |Decimal(fields[0])| + 1, fields[1..]);
      assert [fields[0]] + fields[1..] == fields;
    }
  }

  /** The constructor from a string inverts toString8, for all int fields. */
  method RoundTrip(area: SecCameraArea) returns (copy: SecCameraArea)
    requires IsInt(area.left) && IsInt(area.top) && IsInt(area.right) && IsInt(area.bottom) && IsInt(area.weight)
    ensures copy.Value() == area.Value()
  {
    var text := area.ToString8();
    FieldsParsed(text, 1, [area.left, area.top, area.right, area.bottom, area.weight]);
    copy := new SecCameraArea.FromString(Some(text));
  }

  // -------- picture positions

  lemma HalfMonotone(a: int, a': int)
    requires a <= a'
    ensures TruncDiv(a, 2) <= TruncDiv(a', 2)
  {}

  lemma ScaleMonotone(a: int, a': int)
    requires a <= a'
    ensures TruncDiv(a, 2000) <= TruncDiv(a', 2000)
  {}

  lemma Times(a: int, b: int, c: nat)
    requires a <= b
    ensures a * c <= b * c
  {}

  /** Areas further right are never mapped further left, even outside the coordinates' range. */
  lemma PositionMonotone(sum: int, sum': int, size: nat)
    requires sum <= sum'
    ensures Position(sum, size) <= Position(sum', size)
  {
    HalfMonotone(sum, sum');
    var a, a' := TruncDiv(sum, 2) + 1000, TruncDiv(sum', 2) + 1000;
    hide TruncDiv;
    Times(a, a', size);
    ScaleMonotone(a * size, a' * size);
  }

  /** Coordinates in range are mapped into the picture, its edges to the edges; the product does
    * not overflow if 2000 times the size does not. */
  lemma PositionInside(sum: int, size: nat)
    requires -2000 <= sum <= 2000
    ensures 0 <= Position(sum, size) <= size
    ensures Position(-2000, size) == 0 && Position(2000, size) == size && Position(0, size) == size / 2
    ensures 2000 * size <= INT_MAX ==> IsInt((TruncDiv(sum, 2) + 1000) * size)
  {
    PositionMonotone(-2000, sum, size);
    PositionMonotone(sum, 2000, size);
    PositionEdges(size);
    var a := TruncDiv(sum, 2) + 1000;
    hide Position, TruncDiv;
    Times(0, a, size);
    Times(a, 2000, size);
  }

  lemma PositionEdges(size: nat)
    ensures Position(-2000, size) == 0 && Position(2000, size) == size && Position(0, size) == size / 2
  {
    assert TruncDiv(-2000, 2) == -1000 && TruncDiv(2000, 2) == 1000;
  }

  lemma PositionInRange(a: int, b: int, size: nat)
    ensures var p := Position(a + b, size);
            -2000 <= a + b <= 2000 ==> 0 <= p <= size && InMiddle(p, a, b, size)
    ensures a + b == 0 ==> Position(a + b, size) == size / 2
  {
    if -2000 <= a + b <= 2000 {
      PositionInside(a + b, size);
      PositionExact(a, b, size);
    }
  }

  /** The position is that of the middle, rounded twice. */
  lemma PositionExact(a: int, b: int, size: nat)
    requires -2000 <= a + b <= 2000
    ensures InMiddle(Position(a + b, size), a, b, size)
  {
    var half := TruncDiv(a + b, 2);
    var p := (half + 1000) * size;
    var twice := 2000 + a + b + (if (a + b) % 2 == 0 then 0 else if a + b > 0 then -1 else 1);
    assert 2 * half + 2000 == twice;
    Times(0, half + 1000, size);
    assert twice * size == 2 * p;
    ScaleAccurate(p);
    hide TruncDiv;
  }

  /** So it is exact up to the two truncations. */
  lemma PositionAccurate(sum: int, size: nat)
    requires -2000 <= sum <= 2000
    ensures (sum + 1999) * size - 4000 < 4000 * Position(sum, size) <= (sum + 2001) * size
  {
    PositionExact(sum, 0, size);
    var twice := 2000 + sum + (if sum % 2 == 0 then 0 else if sum > 0 then -1 else 1);
    Times(sum + 1999, twice, size);
    Times(twice, sum + 2001, size);
    hide Position;
  }

  lemma ScaleAccurate(p: nat)
    ensures p - 2000 < 2000 * TruncDiv(p, 2000) <= p
  {
  }
}
