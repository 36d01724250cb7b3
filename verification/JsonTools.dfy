/** The JSON conversions of JsonTools: scalars, arrays, keyed members, and ids read through text. */
module JsonTools {
  import opened Wrappers

  // ---- values ------------------------------------------------------------------------------------

  /** A parsed value. Integers that fit 64 bits signed are `JInt`, those that fit only unsigned `JUInt`. */
  datatype Json =
    | JNull
    | JBool(b: bool)
    | JInt(i: int)
    | JUInt(u: int)
    | JReal(r: real)
    | JString(s: string)
    | JArray(elements: seq<Json>)
    | JObject(members: map<string, Json>)

  const INT_MIN: int := -0x8000_0000
  const INT_MAX: int := 0x7fff_ffff
  const UINT_MAX: int := 0xffff_ffff
  const LONG_MIN: int := -0x8000_0000_0000_0000
  const LONG_MAX: int := 0x7fff_ffff_ffff_ffff
  const ULONG_MAX: int := 0xffff_ffff_ffff_ffff

  /** The texts the libraries print that this model does not fix: numbers printed through double, and what
      follows the first character of a string, array or object. */
  datatype Library = Library(streamText: Json -> string, realText: real -> string, rest: Json -> string)

  function Truncate(r: real): int { if r < 0.0 then -((-r).Floor) else r.Floor }

  predicate IsInt(v: Json) {
    match v
    case JInt(i) => INT_MIN <= i <= INT_MAX
    case JUInt(u) => u <= INT_MAX
    case JReal(r) => INT_MIN as real <= r <= INT_MAX as real && r == r.Floor as real
    case _ => false
  }

  predicate IsUInt(v: Json) {
    match v
    case JInt(i) => 0 <= i <= UINT_MAX
    case JUInt(u) => u <= UINT_MAX
    case JReal(r) => 0.0 <= r <= UINT_MAX as real && r == r.Floor as real
    case _ => false
  }

  /** The integer a convertible number, boolean or null stands for. */
  function AsInteger(v: Json): int {
    match v
    case JInt(i) => i
    case JUInt(u) => u
    case JReal(r) => Truncate(r)
    case JBool(b) => if b then 1 else 0
    case _ => 0
  }

  predicate ConvertibleToInt(v: Json) {
    IsInt(v) || (v.JReal? && INT_MIN as real <= v.r <= INT_MAX as real) || v.JBool? || v.JNull?
  }

  predicate ConvertibleToUInt(v: Json) {
    IsUInt(v) || (v.JReal? && 0.0 <= v.r <= UINT_MAX as real) || v.JBool? || v.JNull?
  }

  // ---- printing ----------------------------------------------------------------------------------

  predicate IsDigit(c: char) { '0' <= c <= '9' }

  function Digit(n: nat): (c: char)
    requires n < 10
    ensures IsDigit(c) && DigitValue(c) == n
  {
    ("0123456789")[n]
  }

  function DigitValue(c: char): nat
    requires IsDigit(c)
  {
    c as int - '0' as int
  }

  function PrintNat(n: nat): (s: string)
    ensures s != [] && forall i :: 0 <= i < |s| ==> IsDigit(s[i])
  {
    if n < 10 then [Digit(n)] else PrintNat(n / 10) + [Digit(n % 10)]
  }

  function PrintInt(n: int): string {
    if n < 0 then "-" + PrintNat(-n) else PrintNat(n)
  }

  // ---- parsing -----------------------------------------------------------------------------------

  predicate IsSpace(c: char) { c in {' ', '\t', '\n', '\r', 11 as char, 12 as char} }

  function SkipSpaces(s: string): (r: string)
    ensures |r| <= |s| && (r != [] ==> !IsSpace(r[0]))
  {
    if s != [] && IsSpace(s[0]) then SkipSpaces(s[1..]) else s
  }

  function DigitPrefix(s: string): (n: nat)
    ensures n <= |s| && (forall i :: 0 <= i < n ==> IsDigit(s[i])) && (n < |s| ==> !IsDigit(s[n]))
  {
    if s != [] && IsDigit(s[0]) then 1 + DigitPrefix(s[1..]) else 0
  }

  function ValueOf(s: string): nat
    requires forall i :: 0 <= i < |s| ==> IsDigit(s[i])
  {
    if s == [] then 0 else 10 * ValueOf(s[..|s| - 1]) + DigitValue(s[|s| - 1])
  }

  /** A C string ends at its first NUL. */
  function CString(s: string): string {
    if s == [] || s[0] == '\0' then [] else [s[0]] + CString(s[1..])
  }

  /** The subject sequence of section 7.22.1.4 of ISO C11 in base 10: optional white space, an optional
      sign and a nonempty digit sequence. `whole` says nothing follows it. */
  datatype Subject = NoSubject | Subject(negative: bool, magnitude: nat, whole: bool)

  function Scan(s: string): Subject {
    var t := SkipSpaces(s);
    var signed := t != [] && (t[0] == '-' || t[0] == '+');
    var u := if signed then t[1..] else t;
    var n := DigitPrefix(u);
    if n == 0 then NoSubject else Subject(signed && t[0] == '-', ValueOf(u[..n]), n == |u|)
  }

  function Signed(s: Subject): int
    requires s.Subject?
  {
    if s.negative then 0 - s.magnitude else s.magnitude
  }

  /** The int a string is read as. strtol reports ERANGE outside long, and the rest is range-checked. */
  function ParseInt(text: string): Option<int> {
    var s := Scan(CString(text));
    if s.Subject? && s.whole && LONG_MIN <= Signed(s) <= LONG_MAX && INT_MIN <= Signed(s) <= INT_MAX
    then Some(Signed(s)) else None
  }

  /** strtoul negates in the unsigned type: a minus sign gives 2^64 minus the magnitude. */
  function Unsigned(s: Subject): int
    requires s.Subject?
  {
    if s.negative && s.magnitude > 0 then ULONG_MAX + 1 - s.magnitude else s.magnitude
  }

  function ParseUInt(text: string): Option<int> {
    var s := Scan(CString(text));
    if s.Subject? && s.whole && s.magnitude <= ULONG_MAX && Unsigned(s) <= UINT_MAX
    then Some(Unsigned(s)) else None
  }

  /** atoll: the value of the subject sequence, 0 without one. Outside 64 bits it is undefined in C; the
      model saturates, as strtoll does. */
  function Atoll(text: string): int {
    var s := Scan(CString(text));
    if !s.Subject? then 0
    else if Signed(s) < LONG_MIN then LONG_MIN
    else if Signed(s) > LONG_MAX then LONG_MAX
    else Signed(s)
  }

  // ---- scalars -----------------------------------------------------------------------------------

  function GetString(v: Json, lib: Library): Option<string> {
    if v.JString? then Some(v.s)
    else if v.JBool? then Some(if v.b then "1" else "0")
    else if IsInt(v) then Some(PrintInt(AsInteger(v)))
    else if IsUInt(v) then Some(PrintInt(AsInteger(v)))
    else if v.JInt? || v.JUInt? || v.JReal? then Some(lib.streamText(v))
    else None
  }

  function GetInt(v: Json): Option<int> {
    if v.JString? then ParseInt(v.s)
    else if ConvertibleToInt(v) then Some(AsInteger(v)) else None
  }

  function GetUInt(v: Json): Option<int> {
    if v.JString? then ParseUInt(v.s)
    else if ConvertibleToUInt(v) then Some(AsInteger(v)) else None
  }

  // ---- arrays ------------------------------------------------------------------------------------

  /** The conversions of the longest prefix whose elements all convert. */
  function Conversions<T>(vs: seq<Json>, getter: Json -> Option<T>): (r: seq<T>)
    ensures |r| <= |vs|
    ensures forall i :: 0 <= i < |r| ==> getter(vs[i]) == Some(r[i])
    ensures |r| < |vs| ==> getter(vs[|r|]) == None
  {
    if vs == [] || getter(vs[0]) == None then []
    else [getter(vs[0]).value] + Conversions(vs[1..], getter)
  }

  /** JsonArrayToVector: true exactly for an array all of whose elements convert; the vector always holds
      the conversions of the longest convertible prefix. */
  method JsonArrayToVector<T>(value: Json, getter: Json -> Option<T>) returns (ok: bool, vec: seq<T>)
    ensures vec == if value.JArray? then Conversions(value.elements, getter) else []
    ensures ok <==> value.JArray? && forall i :: 0 <= i < |value.elements| ==> getter(value.elements[i]).Some?
  {
    vec := [];
    if !value.JArray? {
      return false, vec;
    }
    var i := 0;
    while i < |value.elements|
      invariant 0 <= i == |vec| <= |value.elements|
      invariant forall k :: 0 <= k < i ==> getter(value.elements[k]) == Some(vec[k])
    {
      var val := getter(value.elements[i]);
      if val == None {
        ConversionsAre(value.elements, getter, vec);
        return false, vec;
      }
      vec := vec + [val.value];
      i := i + 1;
    }
    ConversionsAre(value.elements, getter, vec);
    ok := true;
  }

  /** What `Conversions` promises determines it. */
  lemma ConversionsAre<T>(vs: seq<Json>, getter: Json -> Option<T>, r: seq<T>)
    requires |r| <= |vs| && (forall i :: 0 <= i < |r| ==> getter(vs[i]) == Some(r[i]))
    requires |r| < |vs| ==> getter(vs[|r|]) == None
    ensures Conversions(vs, getter) == r
  {
    var c := Conversions(vs, getter);
    assert |c| == |r|;
  }

  method VectorToJsonArray<T>(vec: seq<T>, wrap: T -> Json) returns (result: Json)
    ensures result == JArray(Wrapped(vec, wrap))
  {
    var elements: seq<Json> := [];
    for i := 0 to |vec|
      invariant elements == Wrapped(vec[..i], wrap)
    {
      assert vec[..i + 1] == vec[..i] + [vec[i]];
      elements := elements + [wrap(vec[i])];
    }
    assert vec[..|vec|] == vec;
    result := JArray(elements);
  }

  function Wrapped<T>(vec: seq<T>, wrap: T -> Json): (r: seq<Json>)
    ensures |r| == |vec|
  {
    seq(|vec|, i requires 0 <= i < |vec| => wrap(vec[i]))
  }

  // ---- which texts are numbers -------------------------------------------------------------------

  function Pow10(n: nat): nat {
    if n == 0 then 1 else 10 * Pow10(n - 1)
  }

  lemma Shifts(a: nat, p: nat, b: nat)
    ensures 10 * (a * p + b) == a * (10 * p) + 10 * b
  {
  }

  /** Decimal notation: the digits on the left weigh more. */
  lemma {:induction false} PlaceValue(a: string, b: string)
    requires forall i :: 0 <= i < |a| ==> IsDigit(a[i])
    requires forall i :: 0 <= i < |b| ==> IsDigit(b[i])
    ensures ValueOf(a + b) == ValueOf(a) * Pow10(|b|) + ValueOf(b)
    decreases |b|
  {
    if b == [] {
      assert a + b == a;
    } else {
      var n := |b| - 1;
      PlaceValue(a, b[..n]);
      assert (a + b)[..|a| + n] == a + b[..n] && (a + b)[|a| + n] == b[n];
      Shifts(ValueOf(a), Pow10(n), ValueOf(b[..n]));
    }
  }

  /** The parts of a decimal number in a text. */
  predicate Spelled(spaces: string, sign: string, digits: string) {
    && (forall i :: 0 <= i < |spaces| ==> IsSpace(spaces[i]))
    && (sign == "" || sign == "+" || sign == "-")
    && digits != [] && (forall i :: 0 <= i < |digits| ==> IsDigit(digits[i]))
  }

  function Value(sign: string, digits: string): int
    requires Spelled("", sign, digits)
  {
    if sign == "-" then 0 - ValueOf(digits) else ValueOf(digits)
  }

  lemma {:induction false} SpacesAreSkipped(spaces: string, t: string)
    requires (forall i :: 0 <= i < |spaces| ==> IsSpace(spaces[i])) && t != [] && !IsSpace(t[0])
    ensures SkipSpaces(spaces + t) == t
    decreases |spaces|
  {
    if spaces == [] {
      assert spaces + t == t;
    } else {
      SpacesAreSkipped(spaces[1..], t);
      assert (spaces + t)[1..] == spaces[1..] + t;
    }
  }

  lemma DigitsArePrefix(digits: string, rest: string)
    requires (forall i :: 0 <= i < |digits| ==> IsDigit(digits[i])) && (rest == [] || !IsDigit(rest[0]))
    ensures DigitPrefix(digits + rest) == |digits| && (digits + rest)[..|digits|] == digits
  {
    var u := digits + rest;
    assert DigitPrefix(u) <= |u| && u[..|digits|] == digits && u[|digits|..] == rest;
  }

  lemma SignIsRead(s: string, sign: string, u: string)
    requires (sign == "" || sign == "+" || sign == "-") && SkipSpaces(s) == sign + u && u != [] && IsDigit(u[0])
    ensures Scan(s) == Subject(sign == "-", ValueOf(u[..DigitPrefix(u)]), DigitPrefix(u) == |u|)
  {
    var t := sign + u;
    if sign == "" {
      assert t == u;
    } else {
      assert t[0] == sign[0] && t[1..] == u;
    }
  }

  lemma SpelledIsScanned(spaces: string, sign: string, digits: string, rest: string)
    requires Spelled(spaces, sign, digits) && (rest == [] || !IsDigit(rest[0]))
    ensures Scan(spaces + (sign + (digits + rest))) == Subject(sign == "-", ValueOf(digits), rest == [])
  {
    var u := digits + rest;
    var t := sign + u;
    assert t[0] == if sign == "" then digits[0] else sign[0];
    SpacesAreSkipped(spaces, t);
    DigitsArePrefix(digits, rest);
    SignIsRead(spaces + t, sign, u);
  }

  lemma {:induction false} SkippedAreSpaces(s: string) returns (spaces: string)
    ensures s == spaces + SkipSpaces(s) && forall i :: 0 <= i < |spaces| ==> IsSpace(spaces[i])
    decreases |s|
  {
    spaces := "";
    if s != [] && IsSpace(s[0]) {
      var more := SkippedAreSpaces(s[1..]);
      spaces := [s[0]] + more;
    }
  }

  lemma DigitsAreSplit(u: string) returns (digits: string, rest: string)
    ensures u == digits + rest && digits == u[..DigitPrefix(u)] && (rest == [] || !IsDigit(rest[0]))
    ensures forall i :: 0 <= i < |digits| ==> IsDigit(digits[i])
  {
    var n := DigitPrefix(u);
    digits, rest := u[..n], u[n..];
  }

  lemma SignIsSplit(t: string) returns (sign: string, u: string)
    ensures t == sign + u && (sign == "" || sign == "+" || sign == "-")
    ensures t == SkipSpaces(t) && Scan(t).Subject? ==> DigitPrefix(u) > 0
  {
    if t != [] && (t[0] == '-' || t[0] == '+') {
      sign, u := [t[0]], t[1..];
    } else {
      sign, u := "", t;
    }
  }

  lemma ScannedIsSpelled(s: string) returns (spaces: string, sign: string, digits: string, rest: string)
    requires Scan(s).Subject?
    ensures Spelled(spaces, sign, digits) && (rest == [] || !IsDigit(rest[0]))
    ensures s == spaces + (sign + (digits + rest))
  {
    spaces := SkippedAreSpaces(s);
    var t, u := SkipSpaces(s), "";
    assert t == SkipSpaces(t) && Scan(t) == Scan(s);
    sign, u := SignIsSplit(t);
    digits, rest := DigitsAreSplit(u);
  }

  /** The text up to its first NUL is white space, an optional sign and digits. */
  ghost predicate Spells(text: string, sign: string, digits: string) {
    exists spaces: string :: Spelled(spaces, sign, digits) && CString(text) == spaces + (sign + (digits + ""))
  }

  lemma SpellsIsScan(text: string, sign: string, digits: string)
    requires Spells(text, sign, digits)
    ensures Scan(CString(text)) == Subject(sign == "-", ValueOf(digits), true)
  {
    var spaces: string :| Spelled(spaces, sign, digits) && CString(text) == spaces + (sign + (digits + ""));
    SpelledIsScanned(spaces, sign, digits, "");
  }

  lemma ScanIsSpells(text: string) returns (sign: string, digits: string)
    requires var s := Scan(CString(text)); s.Subject? && s.whole
    ensures Spells(text, sign, digits)
  {
    var spaces, g, d, rest := ScannedIsSpelled(CString(text));
    SpelledIsScanned(spaces, g, d, rest);
    sign, digits := g, d;
  }

  /** A string is read as an int exactly when it spells one, white space and a plus sign included. */
  lemma IntTexts(text: string, n: int)
    ensures ParseInt(text) == Some(n) <==>
      && INT_MIN <= n <= INT_MAX
      && (exists sign: string, digits: string :: Spells(text, sign, digits) && n == Value(sign, digits))
  {
    if ParseInt(text) == Some(n) {
      var sign, digits := ScanIsSpells(text);
      SpellsIsScan(text, sign, digits);
    }
    forall sign: string, digits: string | Spells(text, sign, digits) && n == Value(sign, digits)
        && INT_MIN <= n <= INT_MAX
      ensures ParseInt(text) == Some(n)
    {
      SpellsIsScan(text, sign, digits);
    }
  }

  /** As an unsigned: the number must fit 64 bits unsigned without its sign, and counts modulo 2^64 with it. */
  lemma UIntTexts(text: string, n: int)
    ensures ParseUInt(text) == Some(n) <==>
      && 0 <= n <= UINT_MAX
      && (exists sign: string, digits: string ::
            && Spells(text, sign, digits) && ValueOf(digits) <= ULONG_MAX
            && (n == Value(sign, digits) || n == Value(sign, digits) + ULONG_MAX + 1))
  {
    if ParseUInt(text) == Some(n) {
      var sign, digits := ScanIsSpells(text);
      SpellsIsScan(text, sign, digits);
    }
    forall sign: string, digits: string | Spells(text, sign, digits) && ValueOf(digits) <= ULONG_MAX
        && 0 <= n <= UINT_MAX && (n == Value(sign, digits) || n == Value(sign, digits) + ULONG_MAX + 1)
      ensures ParseUInt(text) == Some(n)
    {
      SpellsIsScan(text, sign, digits);
    }
  }

  /** An id is the number its text begins with, whatever follows, cut to 64 bits. */
  lemma LeadingNumber(text: string, spaces: string, sign: string, digits: string, rest: string)
    requires Spelled(spaces, sign, digits) && (rest == [] || !IsDigit(rest[0]))
    requires CString(text) == spaces + (sign + (digits + rest))
    ensures var n := Value(sign, digits);
      Atoll(text) == if n < LONG_MIN then LONG_MIN else if n > LONG_MAX then LONG_MAX else n
  {
    SpelledIsScanned(spaces, sign, digits, rest);
  }

  /** What stands behind a NUL is not read. */
  lemma {:induction false} NulEnds(a: string, b: string)
    requires '\0' !in a
    ensures CString(a) == a && CString(a + (['\0'] + b)) == a
    decreases |a|
  {
    if a == [] {
      assert a + (['\0'] + b) == ['\0'] + b;
    } else {
      NulEnds(a[1..], b);
      assert (a + (['\0'] + b))[1..] == a[1..] + (['\0'] + b);
      assert a == [a[0]] + a[1..];
    }
  }

  /** A real number is read as an int exactly in the range of int, rounded towards zero. */
  lemma RealsAreTruncated(r: real, n: int)
    ensures GetInt(JReal(r)) == Some(n) <==>
      && INT_MIN as real <= r <= INT_MAX as real
      && (r >= 0.0 ==> n as real <= r < n as real + 1.0)
      && (r < 0.0 ==> n as real - 1.0 < r <= n as real)
    ensures GetUInt(JReal(r)) == Some(n) <==> 0.0 <= r <= UINT_MAX as real && n as real <= r < n as real + 1.0
  {
  }

  /** Integers are read as themselves in range and not at all outside; true is 1, false and null are 0; arrays
      and objects are no numbers. */
  lemma ScalarsAreRead(n: int, b: bool, v: Json)
    ensures GetInt(JInt(n)) == if INT_MIN <= n <= INT_MAX then Some(n) else None
    ensures GetUInt(JInt(n)) == if 0 <= n <= UINT_MAX then Some(n) else None
    ensures n > LONG_MAX ==> GetInt(JUInt(n)) == GetUInt(JUInt(n)) == None
    ensures 0 <= n ==> GetUInt(JUInt(n)) == if n <= UINT_MAX then Some(n) else None
    ensures GetInt(JBool(b)) == GetUInt(JBool(b)) == Some(if b then 1 else 0)
    ensures GetInt(JNull) == GetUInt(JNull) == Some(0)
    ensures v.JArray? || v.JObject? ==> GetInt(v) == GetUInt(v) == None
  {
  }

  /** A boolean or an integer written as a string is read as what it is itself read as. */
  lemma StringsKeepTheNumber(v: Json, lib: Library)
    requires (v.JBool? || IsInt(v) || IsUInt(v)) && (v.JUInt? ==> v.u >= 0)
    ensures GetString(v, lib).Some?
    ensures var text := JString(GetString(v, lib).value); GetInt(text) == GetInt(v) && GetUInt(text) == GetUInt(v)
  {
    if v.JBool? {
      assert PrintInt(1) == "1" && PrintInt(0) == "0";
    }
    ParsePrintedInt(AsInteger(v));
    ParsePrintedUInt(AsInteger(v));
  }

  /** A string is itself as a string; null, arrays and objects are no strings. */
  lemma StringsAreRead(s: string, v: Json, lib: Library)
    ensures GetString(JString(s), lib) == Some(s)
    ensures GetString(v, lib) == None <==> v.JNull? || v.JArray? || v.JObject?
  {
  }

  // ---- printing then parsing ---------------------------------------------------------------------

  lemma {:induction false} PrintedValue(n: nat)
    ensures ValueOf(PrintNat(n)) == n
    decreases n
  {
    if n >= 10 {
      PrintedValue(n / 10);
      var s := PrintNat(n);
      assert s[..|s| - 1] == PrintNat(n / 10);
    } else {
      assert PrintNat(n)[..0] == [];
    }
  }

  lemma {:induction false} DigitsEnd(s: string)
    requires forall i :: 0 <= i < |s| ==> IsDigit(s[i])
    ensures DigitPrefix(s) == |s| && CString(s) == s && SkipSpaces(s) == s
    decreases |s|
  {
    if s != [] {
      DigitsEnd(s[1..]);
      assert s == [s[0]] + s[1..];
    }
  }

  lemma ScanDigits(digits: string)
    requires digits != [] && forall i :: 0 <= i < |digits| ==> IsDigit(digits[i])
    ensures Scan(CString(digits)) == Subject(false, ValueOf(digits), true)
  {
    DigitsEnd(digits);
    assert digits[..|digits|] == digits;
  }

  lemma ScanNegative(digits: string)
    requires digits != [] && forall i :: 0 <= i < |digits| ==> IsDigit(digits[i])
    ensures Scan(CString("-" + digits)) == Subject(true, ValueOf(digits), true)
  {
    var t := ['-'] + digits;
    DigitsEnd(digits);
    assert t[1..] == digits && digits[..|digits|] == digits;
    assert CString(t) == t && SkipSpaces(t) == t;
    assert Scan(t) == Subject(true, ValueOf(digits), true);
  }

  /** The printed form of an integer is scanned as that integer, with nothing left over. */
  lemma ScanPrinted(n: int)
    ensures var s := Scan(CString(PrintInt(n))); s.Subject? && s.whole && Signed(s) == n && (s.negative <==> n < 0)
  {
    var magnitude := if n < 0 then -n else n;
    PrintedValue(magnitude);
    if n < 0 {
      ScanNegative(PrintNat(magnitude));
    } else {
      ScanDigits(PrintNat(magnitude));
    }
  }

  /** Reading back a printed int succeeds exactly inside the range of int, and gives the same int. */
  lemma ParsePrintedInt(n: int)
    ensures ParseInt(PrintInt(n)) == if INT_MIN <= n <= INT_MAX then Some(n) else None
  {
    ScanPrinted(n);
  }

  /** Reading a printed integer as unsigned: besides the unsigned range, it accepts the negative numbers
      whose 64-bit complement lies in it. */
  lemma ParsePrintedUInt(n: int)
    ensures ParseUInt(PrintInt(n)) ==
      if 0 <= n <= UINT_MAX then Some(n)
      else if -ULONG_MAX <= n <= UINT_MAX - ULONG_MAX - 1 then Some(ULONG_MAX + 1 + n)
      else None
  {
    ScanPrinted(n);
  }

  predicate Ints(v: seq<int>) { forall i :: 0 <= i < |v| ==> INT_MIN <= v[i] <= INT_MAX }

  predicate UInts(v: seq<int>) { forall i :: 0 <= i < |v| ==> 0 <= v[i] <= UINT_MAX }

  function StringGetter(lib: Library): Json -> Option<string> { v => GetString(v, lib) }

  /** A vector turned into a JSON array, read as strings, turned into a JSON array of strings and read back
      comes out unchanged, for every vector of ints. */
  lemma IntVectorRoundTrip(v: seq<int>, lib: Library)
    requires Ints(v)
    ensures var texts := Conversions(Wrapped(v, n => JInt(n)), StringGetter(lib));
      |texts| == |v| && Conversions(Wrapped(texts, s => JString(s)), GetInt) == v
  {
    var printed := seq(|v|, i requires 0 <= i < |v| => PrintInt(v[i]));
    ConversionsAre(Wrapped(v, n => JInt(n)), StringGetter(lib), printed);
    forall i | 0 <= i < |v| ensures GetInt(JString(printed[i])) == Some(v[i]) {
      ParsePrintedInt(v[i]);
    }
    ConversionsAre(Wrapped(printed, s => JString(s)), GetInt, v);
  }

  /** The same for every vector of unsigneds. */
  lemma UIntVectorRoundTrip(v: seq<int>, lib: Library)
    requires UInts(v)
    ensures var texts := Conversions(Wrapped(v, n => JUInt(n)), StringGetter(lib));
      |texts| == |v| && Conversions(Wrapped(texts, s => JString(s)), GetUInt) == v
  {
    var printed := seq(|v|, i requires 0 <= i < |v| => PrintInt(v[i]));
    ConversionsAre(Wrapped(v, n => JUInt(n)), StringGetter(lib), printed);
    forall i | 0 <= i < |v| ensures GetUInt(JString(printed[i])) == Some(v[i]) {
      ParsePrintedUInt(v[i]);
    }
    ConversionsAre(Wrapped(printed, s => JString(s)), GetUInt, v);
  }

  // ---- keyed members -----------------------------------------------------------------------------

  /** GetValueFromJsonObject leaves its null default when the member is missing. */
  function Member(v: Json, k: string): Json {
    if v.JObject? && k in v.members then v.members[k] else JNull
  }

  function HasMember(v: Json, k: string): bool { v.JObject? && k in v.members }

  function GetStringMember(v: Json, k: string, lib: Library): Option<string> {
    if HasMember(v, k) then GetString(v.members[k], lib) else None
  }

  /** FastWriter's text of a value, without its newline. */
  function Text(v: Json, lib: Library): string {
    match v
    case JNull => "null"
    case JBool(b) => if b then "true" else "false"
    case JInt(i) => PrintInt(i)
    case JUInt(u) => PrintInt(u)
    case JReal(r) => lib.realText(r)
    case JString(_) => "\"" + lib.rest(v)
    case JArray(_) => "[" + lib.rest(v)
    case JObject(_) => "{" + lib.rest(v)
  }

  /** JsonValueToLongLong: an id is read from the text of the member. */
  function LongLong(v: Json, k: string, lib: Library): int {
    Atoll(Text(Member(v, k), lib))
  }

  lemma NotANumber(text: string)
    requires text != [] && !IsSpace(text[0]) && !IsDigit(text[0]) && text[0] != '-' && text[0] != '+' && text[0] != '\0'
    ensures Atoll(text) == 0
  {
    assert CString(text)[0] == text[0];
  }

  /** Every 64-bit integer member is read as itself; a missing member, a null, a boolean, a string (even one that
      spells a number), an array or an object is read as 0. */
  lemma IdExtraction(v: Json, k: string, lib: Library)
    ensures Member(v, k).JInt? && LONG_MIN <= Member(v, k).i <= LONG_MAX ==> LongLong(v, k, lib) == Member(v, k).i
    ensures Member(v, k).JUInt? && LONG_MIN <= Member(v, k).u <= LONG_MAX ==> LongLong(v, k, lib) == Member(v, k).u
    ensures !HasMember(v, k) ==> LongLong(v, k, lib) == 0
    ensures var m := Member(v, k);
      m.JNull? || m.JBool? || m.JString? || m.JArray? || m.JObject? ==> LongLong(v, k, lib) == 0
  {
    match Member(v, k)
    case JInt(i) => ScanPrinted(i);
    case JUInt(u) => ScanPrinted(u);
    case JReal(_) =>
    case _ => NotANumber(Text(Member(v, k), lib));
  }
}
