// The compact JSON array that signatures are computed over: strings and
// integers in a fixed order, printed as encoding/json's Marshal prints them.
//
// Strings are sequences of Unicode scalar values. Marshal would replace invalid
// UTF-8, but every signed string was itself decoded from JSON or drawn as hex.
module CanonicalJson {
  import opened Wrappers

  datatype Scalar = Text(text: string) | Number(number: int)

  // ---- integers ----

  function Digit(d: int): (c: char)
    requires 0 <= d < 10
  {
    ('0' as int + d) as char
  }

  predicate IsDigit(c: char) { '0' <= c <= '9' }

  function Digits(n: nat): (text: string) {
    if n < 10 then [Digit(n)] else Digits(n / 10) + [Digit(n % 10)]
  }

  function Decimal(n: int): (text: string) {
    if n < 0 then "-" + Digits(-n) else Digits(n)
  }

  // ---- strings ----

  function Hex(d: int): (c: char)
    requires 0 <= d < 16
  {
    if d < 10 then Digit(d) else ('a' as int + d - 10) as char
  }

  function Nibble(c: char, weight: nat): (d: int)
    requires weight > 0
    ensures 0 <= d < 16
  {
    c as int / weight % 16
  }

  // The letter of a two-character escape, or the character itself when there is none.
  function ShortEscape(c: char): (e: char) {
    if c == '\"' then '\"'
    else if c == '\\' then '\\'
    else if c == 8 as char then 'b'
    else if c == 12 as char then 'f'
    else if c == '\n' then 'n'
    else if c == '\r' then 'r'
    else if c == '\t' then 't'
    else ' '
  }

  predicate HasShort(c: char) {
    c == '\"' || c == '\\' || c == 8 as char || c == 12 as char || c == '\n' || c == '\r' || c == '\t'
  }

  // Control characters, the three HTML characters and the two line separators.
  predicate HasLong(c: char) {
    !HasShort(c) && (c < ' ' || c == '<' || c == '>' || c == '&' || c == '\U{2028}' || c == '\U{2029}')
  }

  function Escape(c: char): (e: string)
    ensures |e| > 0 && e[0] != '\"'
    ensures (e[0] == '\\') <==> HasShort(c) || HasLong(c)
  {
    if HasShort(c) then ['\\', ShortEscape(c)]
    else if HasLong(c) then
      ['\\', 'u', Hex(Nibble(c, 4096)), Hex(Nibble(c, 256)), Hex(Nibble(c, 16)), Hex(Nibble(c, 1))]
    else [c]
  }

  function EscapeAll(s: string): (text: string) {
    if s == [] then [] else Escape(s[0]) + EscapeAll(s[1..])
  }

  // ---- the array ----

  function Print(x: Scalar): (text: string) {
    match x
    case Text(s) => "\"" + EscapeAll(s) + "\""
    case Number(n) => Decimal(n)
  }

  function PrintTail(xs: seq<Scalar>): (text: string) {
    if xs == [] then "]" else "," + Print(xs[0]) + PrintTail(xs[1..])
  }

  function Marshal(xs: seq<Scalar>): (text: string)
    requires xs != []
    ensures text != "" && text[0] == '['
  {
    "[" + Print(xs[0]) + PrintTail(xs[1..])
  }

  // ---- what the strings look like ----

  // No control character, quote, backslash, HTML character or line separator.
  predicate Harmless(c: char) {
    c >= ' ' && c != '<' && c != '>' && c != '&' && c != '\U{2028}' && c != '\U{2029}'
  }

  predicate Plain(s: string) {
    forall i :: 0 <= i < |s| ==> Harmless(s[i]) && s[i] != '\"' && s[i] != '\\'
  }

  // A plain text is printed as it is, between quotes.
  lemma {:induction false} PlainIsItself(s: string)
    requires Plain(s)
    ensures EscapeAll(s) == s
  {
    if s != [] {
      PlainIsItself(s[1..]);
      assert s == [s[0]] + s[1..];
    }
  }

  predicate Safe(s: string) {
    forall i :: 0 <= i < |s| ==> Harmless(s[i])
  }

  lemma EscapeIsSafe(c: char)
    ensures Safe(Escape(c))
  {
  }

  // Whatever is printed can stand in a web page: no control character, none of the
  // HTML characters and no line separator of its own.
  lemma {:induction false} EscapedIsSafe(s: string)
    ensures Safe(EscapeAll(s))
  {
    if s != [] {
      EscapeIsSafe(s[0]);
      EscapedIsSafe(s[1..]);
    }
  }

  // ---- reading the array back, by the grammar of RFC 8259 ----

  // The number of digits at the start of a text.
  function DigitRun(s: string): (n: nat)
    ensures n <= |s| && forall i :: 0 <= i < n ==> IsDigit(s[i])
    ensures n < |s| ==> !IsDigit(s[n])
  {
    if s != [] && IsDigit(s[0]) then 1 + DigitRun(s[1..]) else 0
  }

  function Value(s: string): (value: int)
    requires forall c :: c in s ==> IsDigit(c)
  {
    if s == [] then 0 else Value(s[..|s| - 1]) * 10 + (s[|s| - 1] as int - '0' as int)
  }

  // The hexadecimal digit's value, in either case.
  function HexValue(c: char): (value: Option<nat>) {
    if IsDigit(c) then Some(c as nat - '0' as nat)
    else if 'a' <= c <= 'f' then Some(c as nat - 'a' as nat + 10)
    else if 'A' <= c <= 'F' then Some(c as nat - 'A' as nat + 10)
    else None
  }

  // The character of \uXXXX, where it is one by itself (section 7).
  function ReadCode(s: string): (c: Option<char>)
    requires |s| == 4
  {
    match (HexValue(s[0]), HexValue(s[1]), HexValue(s[2]), HexValue(s[3]))
    case (Some(a), Some(b), Some(c), Some(d)) =>
      var code := a * 4096 + b * 256 + c * 16 + d;
      if code < 0xD800 || 0xE000 <= code <= 0xFFFF then Some(code as char) else None
    case _ => None
  }

  // The character of a two-character escape (section 7).
  function ReadShort(e: char): (c: Option<char>) {
    match e
    case '\"' => Some('\"')
    case '\\' => Some('\\')
    case '/' => Some('/')
    case 'b' => Some(8 as char)
    case 'f' => Some(12 as char)
    case 'n' => Some('\n')
    case 'r' => Some('\r')
    case 't' => Some('\t')
    case _ => None
  }

  // One character of a string and what follows it.
  function ReadChar(s: string): (r: Option<(char, string)>)
    requires s != []
    ensures r.Some? ==> |r.value.1| < |s|
  {
    if s[0] != '\\' then if s[0] < ' ' || s[0] == '\"' then None else Some((s[0], s[1..]))
    else if |s| >= 6 && s[1] == 'u' then
      match ReadCode(s[2..6])
      case Some(c) => Some((c, s[6..]))
      case None => None
    else if |s| >= 2 && ReadShort(s[1]).Some? then Some((ReadShort(s[1]).value, s[2..]))
    else None
  }

  // The rest of a string up to its closing quote, and what follows that.
  function ReadString(s: string): (r: Option<(string, string)>)
    ensures r.Some? ==> |r.value.1| < |s|
    decreases |s|
  {
    if s == [] then None
    else if s[0] == '\"' then Some(([], s[1..]))
    else
      match ReadChar(s)
      case None => None
      case Some((c, rest)) =>
        match ReadString(rest)
        case None => None
        case Some((text, after)) => Some(([c] + text, after))
  }

  function ReadDigits(s: string): (r: Option<(int, string)>)
    ensures r.Some? ==> |r.value.1| < |s|
  {
    var n := DigitRun(s);
    if n == 0 || (n > 1 && s[0] == '0') then None else Some((Value(s[..n]), s[n..]))
  }

  function ReadScalar(s: string): (r: Option<(Scalar, string)>)
    ensures r.Some? ==> |r.value.1| < |s|
  {
    if s == [] then None
    else if s[0] == '\"' then
      match ReadString(s[1..])
      case Some((text, rest)) => Some((Text(text), rest))
      case None => None
    else if s[0] == '-' then
      match ReadDigits(s[1..])
      case Some((n, rest)) => Some((Number(-n), rest))
      case None => None
    else
      match ReadDigits(s)
      case Some((n, rest)) => Some((Number(n), rest))
      case None => None
  }

  // A scalar and the ones after it, up to the end of the array and of the text.
  function ReadItems(s: string): (r: Option<seq<Scalar>>)
    decreases |s|
  {
    match ReadScalar(s)
    case None => None
    case Some((x, rest)) =>
      if rest == "]" then Some([x])
      else if rest != [] && rest[0] == ',' then
        match ReadItems(rest[1..])
        case Some(xs) => Some([x] + xs)
        case None => None
      else None
  }

  function ReadArray(s: string): (r: Option<seq<Scalar>>) {
    if s != [] && s[0] == '[' then ReadItems(s[1..]) else None
  }

  // ---- what was printed is read back ----

  lemma {:induction false} DigitsValue(n: nat)
    ensures |Digits(n)| > 0 && (forall c :: c in Digits(n) ==> IsDigit(c))
    ensures Value(Digits(n)) == n
    ensures n > 0 ==> Digits(n)[0] != '0'
    ensures n < 10 ==> |Digits(n)| == 1
  {
    if n >= 10 {
      DigitsValue(n / 10);
      assert Digits(n)[..|Digits(n)| - 1] == Digits(n / 10);
    } else {
      assert Digits(n)[..0] == [];
    }
  }

  // What may follow a scalar in the array.
  predicate Stops(s: string) {
    |s| > 0 && (s[0] == ',' || s[0] == ']')
  }

  lemma {:induction false} RunOfDigits(ds: string, u: string)
    requires (forall c :: c in ds ==> IsDigit(c)) && Stops(u)
    ensures DigitRun(ds + u) == |ds|
  {
    var s := ds + u;
    assert s[|ds|] == u[0];
    forall i | 0 <= i < |ds| ensures IsDigit(s[i]) {
      assert ds[i] in ds;
    }
  }

  lemma DigitsReadBack(n: nat, u: string)
    requires Stops(u)
    ensures ReadDigits(Digits(n) + u) == Some((n, u))
  {
    DigitsValue(n);
    RunOfDigits(Digits(n), u);
    var s := Digits(n) + u;
    assert s[..|Digits(n)|] == Digits(n) && s[|Digits(n)|..] == u && s[0] == Digits(n)[0];
  }

  // The first character tells how to read the scalar.
  lemma ScalarStarts(s: string, x: Scalar, u: string)
    requires s != []
    requires match x
             case Text(text) => s[0] == '\"' && ReadString(s[1..]) == Some((text, u))
             case Number(n) =>
               if n < 0 then s[0] == '-' && ReadDigits(s[1..]) == Some((-n, u))
               else IsDigit(s[0]) && ReadDigits(s) == Some((n, u))
    ensures ReadScalar(s) == Some((x, u))
  {
  }

  lemma NumberReadsBack(n: int, u: string)
    requires Stops(u)
    ensures ReadScalar(Decimal(n) + u) == Some((Number(n), u))
  {
    if n < 0 {
      DigitsReadBack(-n, u);
      DropFirst('-', Digits(-n), u);
      assert Decimal(n) == ['-'] + Digits(-n);
    } else {
      DigitsReadBack(n, u);
      DigitsValue(n);
      assert (Digits(n) + u)[0] == Digits(n)[0] && Digits(n)[0] in Digits(n);
    }
    ScalarStarts(Decimal(n) + u, Number(n), u);
  }

  lemma DropFirst(c: char, p: string, r: string)
    ensures ([c] + p + r)[0] == c && ([c] + p + r)[1..] == p + r
  {
  }

  lemma HexReadsBack(d: int)
    requires 0 <= d < 16
    ensures HexValue(Hex(d)) == Some(d)
  {
  }

  lemma NibblesDetermine(c: char)
    requires c as int < 65536
    ensures c as int == Nibble(c, 4096) * 4096 + Nibble(c, 256) * 256 + Nibble(c, 16) * 16 + Nibble(c, 1)
  {
    var n := c as int;
    assert n / 16 == n / 256 * 16 + n / 16 % 16;
    assert n / 256 == n / 4096 * 16 + n / 256 % 16;
  }

  lemma CodeReadsBack(c: char)
    requires HasLong(c)
    ensures ReadCode(Escape(c)[2..6]) == Some(c)
  {
    HexReadsBack(Nibble(c, 4096));
    HexReadsBack(Nibble(c, 256));
    HexReadsBack(Nibble(c, 16));
    HexReadsBack(Nibble(c, 1));
    NibblesDetermine(c);
  }

  lemma CharReadsBack(c: char, u: string)
    ensures ReadChar(Escape(c) + u) == Some((c, u))
  {
    var s := Escape(c) + u;
    assert s[|Escape(c)|..] == u && s[0] == Escape(c)[0];
    if HasLong(c) {
      CodeReadsBack(c);
      assert s[1] == Escape(c)[1] && s[2..6] == Escape(c)[2..6];
    } else if HasShort(c) {
      assert s[1] == Escape(c)[1];
    }
  }

  lemma {:induction false} StringReadsBack(s: string, u: string)
    ensures ReadString(EscapeAll(s) + "\"" + u) == Some((s, u))
  {
    if s == [] {
      assert EscapeAll(s) + "\"" + u == "\"" + u;
    } else {
      var printed, rest := EscapeAll(s) + "\"" + u, EscapeAll(s[1..]) + "\"" + u;
      JoinedOn(Escape(s[0]), EscapeAll(s[1..]), "\"", u);
      CharReadsBack(s[0], rest);
      StringReadsBack(s[1..], u);
      StringStep(printed, s[0], rest, s[1..], u);
      assert s == [s[0]] + s[1..];
    }
  }

  lemma JoinedOn(a: string, b: string, c: string, u: string)
    requires a != []
    ensures a + b + c + u == a + (b + c + u) && (a + (b + c + u))[0] == a[0]
  {
  }

  lemma StringStep(s: string, c: char, rest: string, text: string, u: string)
    requires s != [] && s[0] != '\"' && ReadChar(s) == Some((c, rest)) && ReadString(rest) == Some((text, u))
    ensures ReadString(s) == Some(([c] + text, u))
  {
  }

  lemma ScalarReadsBack(x: Scalar, u: string)
    requires Stops(u)
    ensures ReadScalar(Print(x) + u) == Some((x, u))
  {
    match x
    case Number(n) => NumberReadsBack(n, u);
    case Text(s) =>
      StringReadsBack(s, u);
      DropFirst('\"', EscapeAll(s) + "\"", u);
      assert Print(x) == ['\"'] + (EscapeAll(s) + "\"");
      ScalarStarts(Print(x) + u, x, u);
  }

  lemma TailStops(xs: seq<Scalar>)
    ensures Stops(PrintTail(xs))
    ensures PrintTail(xs)[0] == if xs == [] then ']' else ','
    ensures xs != [] ==> PrintTail(xs)[1..] == Print(xs[0]) + PrintTail(xs[1..])
  {
    if xs != [] {
      DropFirst(',', Print(xs[0]), PrintTail(xs[1..]));
    }
  }

  lemma {:induction false} ItemsReadBack(xs: seq<Scalar>)
    requires xs != []
    ensures ReadItems(Print(xs[0]) + PrintTail(xs[1..])) == Some(xs)
  {
    var x, rest := xs[0], xs[1..];
    TailStops(rest);
    ScalarReadsBack(x, PrintTail(rest));
    if rest == [] {
      assert xs == [x];
    } else {
      ItemsReadBack(rest);
      assert xs == [x] + rest;
    }
  }

  // A JSON reader finds in the bytes exactly the items they were made from.
  lemma MarshalReadsBack(xs: seq<Scalar>)
    requires xs != []
    ensures ReadArray(Marshal(xs)) == Some(xs)
  {
    ItemsReadBack(xs);
    DropFirst('[', Print(xs[0]), PrintTail(xs[1..]));
  }

  // So no two lists of items have the same bytes.
  lemma MarshalInjective(xs: seq<Scalar>, ys: seq<Scalar>)
    requires xs != [] && ys != [] && Marshal(xs) == Marshal(ys)
    ensures xs == ys
  {
    MarshalReadsBack(xs);
    MarshalReadsBack(ys);
  }
}
