/** The canonical JSON text that approval payload hashes are taken over: keys sorted, no blanks,
    every character outside printable ASCII escaped. Objects keep the order in which their fields
    were inserted, as the payload dictionaries do. */
module CanonicalJson {
  import opened Decimal

  datatype Json =
    | Null
    | Bool(b: bool)
    | Num(n: int)
    | Str(s: string)
    | Arr(items: Items)
    | Obj(fields: Fields)
  datatype Items = NoItems | Item(head: Json, tail: Items)
  datatype Fields = NoFields | Field(key: string, value: Json, rest: Fields)

  // ---- Objects as finite maps ----------------------------------------------------------------

  function Keys(fs: Fields): set<string> {
    match fs
    case NoFields => {}
    case Field(k, _, rest) => {k} + Keys(rest)
  }

  function Get(fs: Fields, k: string): Json
    requires k in Keys(fs)
  {
    if fs.key == k then fs.value else Get(fs.rest, k)
  }

  /** A dictionary holds each key once, at every depth. */
  predicate WellFormed(v: Json) {
    match v
    case Arr(items) => WellFormedItems(items)
    case Obj(fields) => WellFormedFields(fields)
    case _ => true
  }

  predicate WellFormedItems(xs: Items) {
    match xs
    case NoItems => true
    case Item(x, rest) => WellFormed(x) && WellFormedItems(rest)
  }

  predicate WellFormedFields(fs: Fields) {
    match fs
    case NoFields => true
    case Field(k, v, rest) => k !in Keys(rest) && WellFormed(v) && WellFormedFields(rest)
  }

  /** Equality of payloads: insertion order of object fields does not matter. */
  predicate Same(v: Json, w: Json) {
    match (v, w)
    case (Arr(xs), Arr(ys)) => SameItems(xs, ys)
    case (Obj(fs), Obj(gs)) => Keys(fs) == Keys(gs) && SameFields(fs, gs)
    case _ => v == w
  }

  predicate SameItems(xs: Items, ys: Items) {
    match (xs, ys)
    case (Item(x, xs'), Item(y, ys')) => Same(x, y) && SameItems(xs', ys')
    case _ => xs == ys
  }

  predicate SameFields(fs: Fields, gs: Fields) {
    match fs
    case NoFields => true
    case Field(k, v, rest) => k in Keys(gs) && Same(v, Get(gs, k)) && SameFields(rest, gs)
  }

  // ---- Sorting the fields --------------------------------------------------------------------

  /** Strict order of strings by code point, the order in which keys are written. */
  predicate Before(a: string, b: string) {
    b != "" && (a == "" || a[0] < b[0] || (a[0] == b[0] && Before(a[1..], b[1..])))
  }

  function Insert(k: string, v: Json, fs: Fields): Fields {
    if fs.NoFields? || Before(k, fs.key) then Field(k, v, fs)
    else Field(fs.key, fs.value, Insert(k, v, fs.rest))
  }

  function Sorted(v: Json): Json {
    match v
    case Arr(items) => Arr(SortedItems(items))
    case Obj(fields) => Obj(SortedFields(fields))
    case _ => v
  }

  function SortedItems(xs: Items): Items {
    match xs
    case NoItems => NoItems
    case Item(x, rest) => Item(Sorted(x), SortedItems(rest))
  }

  function SortedFields(fs: Fields): Fields {
    match fs
    case NoFields => NoFields
    case Field(k, v, rest) => Insert(k, Sorted(v), SortedFields(rest))
  }

  // ---- The text ------------------------------------------------------------------------------

  function HexDigit(d: nat): char
    requires d < 16
  {
    if d < 10 then '0' + d as char else 'a' + (d - 10) as char
  }

  function Hex4(n: nat): string
    requires n < 0x10000
  {
    [HexDigit(n / 0x1000), HexDigit(n / 0x100 % 16), HexDigit(n / 16 % 16), HexDigit(n % 16)]
  }

  function Escape(c: char): string {
    var n := c as int;
    if c == '"' then "\\\""
    else if c == '\\' then "\\\\"
    else if n == 10 then "\\n"
    else if n == 13 then "\\r"
    else if n == 9 then "\\t"
    else if n == 12 then "\\f"
    else if n == 8 then "\\b"
    else if 32 <= n <= 126 then [c]
    else if n < 0x10000 then "\\u" + Hex4(n)
    else "\\u" + Hex4(0xD800 + (n - 0x10000) / 0x400) + "\\u" + Hex4(0xDC00 + (n - 0x10000) % 0x400)
  }

  /** The characters of a string literal after its opening quote. */
  function StringRest(s: string): string {
    if s == "" then "\"" else Escape(s[0]) + StringRest(s[1..])
  }

  function Text(v: Json): string
    decreases v, 0
  {
    match v
    case Null => "null"
    case Bool(b) => if b then "true" else "false"
    case Num(n) => IntText(n)
    case Str(s) => "\"" + StringRest(s)
    case Arr(items) => "[" + ItemsText(items)
    case Obj(fields) => "{" + FieldsText(fields)
  }

  /** An array after its opening bracket. */
  function ItemsText(xs: Items): string
    decreases xs, 0
  {
    match xs
    case NoItems => "]"
    case Item(x, rest) => Text(x) + ItemsMore(rest)
  }

  function ItemsMore(rest: Items): string
    decreases rest, 1
  {
    if rest.NoItems? then "]" else "," + ItemsText(rest)
  }

  /** An object after its opening brace. */
  function FieldsText(fs: Fields): string
    decreases fs, 0
  {
    match fs
    case NoFields => "}"
    case Field(k, v, rest) => "\"" + (StringRest(k) + (":" + (Text(v) + FieldsMore(rest))))
  }

  function FieldsMore(rest: Fields): string
    decreases rest, 1
  {
    if rest.NoFields? then "}" else "," + FieldsText(rest)
  }

  function Canonical(v: Json): string {
    Text(Sorted(v))
  }

  /** The digest an approval is bound to, for a given hash function on texts. */
  function PayloadHash(hash: string -> string, payload: Json): string {
    hash(Canonical(payload))
  }

  // ---- Reading JSON text ---------------------------------------------------------------------

  /** What reading makes of the front of a text, and what it leaves; the grammar is that of RFC 8259 without
      the optional white space, fractions and exponents. */
  datatype Read<+T> = Got(value: T, rest: string) | Bad

  predicate StartsWith(s: string, p: string) {
    |p| <= |s| && s[..|p|] == p
  }

  predicate IsHexDigit(c: char) {
    '0' <= c <= '9' || 'a' <= c <= 'f' || 'A' <= c <= 'F'
  }

  function HexValue(c: char): (d: nat)
    requires IsHexDigit(c)
    ensures d < 16
  {
    if c <= '9' then c as int - 48 else if c <= 'F' then c as int - 55 else c as int - 87
  }

  /** Four hexadecimal digits. */
  function ReadHex4(s: string): (r: Read<nat>)
    ensures r.Got? ==> r.value < 0x10000 && |r.rest| < |s|
  {
    if |s| < 4 || !(IsHexDigit(s[0]) && IsHexDigit(s[1]) && IsHexDigit(s[2]) && IsHexDigit(s[3])) then Bad
    else Got(0x1000 * HexValue(s[0]) + 0x100 * HexValue(s[1]) + 16 * HexValue(s[2]) + HexValue(s[3]), s[4..])
  }

  /** What follows a `\u`: one unit, or the two units of a surrogate pair. A lone surrogate is no character. */
  function ReadUnicode(s: string): (r: Read<char>)
    ensures r.Got? ==> |r.rest| < |s|
  {
    match ReadHex4(s)
    case Bad => Bad
    case Got(unit, rest) =>
      if unit < 0xD800 || unit > 0xDFFF then Got(unit as char, rest)
      else if unit < 0xDC00 && StartsWith(rest, "\\u") then
        match ReadHex4(rest[2..])
        case Bad => Bad
        case Got(low, rest') =>
          if 0xDC00 <= low <= 0xDFFF then Got((0x10000 + 0x400 * (unit - 0xD800) + (low - 0xDC00)) as char, rest')
          else Bad
      else Bad
  }

  /** One character of a string literal. */
  function ReadChar(s: string): (r: Read<char>)
    requires s != ""
    ensures r.Got? ==> |r.rest| < |s|
  {
    if s[0] == '\\' then
      if |s| < 2 then Bad
      else
        match s[1]
        case '"' => Got('"', s[2..])
        case '\\' => Got('\\', s[2..])
        case '/' => Got('/', s[2..])
        case 'b' => Got('\U{8}', s[2..])
        case 'f' => Got('\U{C}', s[2..])
        case 'n' => Got('\n', s[2..])
        case 'r' => Got('\r', s[2..])
        case 't' => Got('\t', s[2..])
        case 'u' => ReadUnicode(s[2..])
        case _ => Bad
    else if s[0] < ' ' then Bad
    else Got(s[0], s[1..])
  }

  /** The rest of a string literal after its opening quote. */
  function ReadString(s: string): (r: Read<string>)
    ensures r.Got? ==> |r.rest| < |s|
    decreases |s|
  {
    if s == "" then Bad
    else if s[0] == '"' then Got("", s[1..])
    else
      match ReadChar(s)
      case Bad => Bad
      case Got(c, rest) =>
        match ReadString(rest)
        case Bad => Bad
        case Got(a, rest') => Got([c] + a, rest')
  }

  /** How many digits the text starts with. */
  function DigitRun(s: string): (n: nat)
    ensures n <= |s| && AllDigits(s[..n]) && (n < |s| ==> !IsDigit(s[n]))
  {
    if s == "" || !IsDigit(s[0]) then 0
    else
      var n := 1 + DigitRun(s[1..]);
      assert forall i :: 0 < i < n ==> s[i] == s[1..][i - 1];
      n
  }

  /** An integer: no plus sign and no leading zero. */
  function ReadInt(s: string): (r: Read<int>)
    ensures r.Got? ==> |r.rest| < |s|
  {
    var digits := if StartsWith(s, "-") then s[1..] else s;
    var n := DigitRun(digits);
    if n == 0 || (n > 1 && digits[0] == '0') then Bad
    else Got(if StartsWith(s, "-") then 0 - NatValue(digits[..n]) else NatValue(digits[..n]), digits[n..])
  }

  function ReadValue(s: string): (r: Read<Json>)
    ensures r.Got? ==> |r.rest| < |s|
    decreases |s|, 1
  {
    if s == "" then Bad
    else
      match s[0]
      case 'n' => if StartsWith(s, "null") then Got(Null, s[4..]) else Bad
      case 't' => if StartsWith(s, "true") then Got(Bool(true), s[4..]) else Bad
      case 'f' => if StartsWith(s, "false") then Got(Bool(false), s[5..]) else Bad
      case '"' =>
        (match ReadString(s[1..])
         case Bad => Bad
         case Got(a, rest) => Got(Str(a), rest))
      case '[' =>
        if StartsWith(s[1..], "]") then Got(Arr(NoItems), s[2..])
        else
          (match ReadItems(s[1..])
           case Bad => Bad
           case Got(items, rest) => Got(Arr(items), rest))
      case '{' =>
        if StartsWith(s[1..], "}") then Got(Obj(NoFields), s[2..])
        else
          (match ReadFields(s[1..])
           case Bad => Bad
           case Got(fields, rest) => Got(Obj(fields), rest))
      case _ =>
        (match ReadInt(s)
         case Bad => Bad
         case Got(n, rest) => Got(Num(n), rest))
  }

  /** One or more values, parted by commas and closed by a bracket. */
  function ReadItems(s: string): (r: Read<Items>)
    ensures r.Got? ==> |r.rest| < |s|
    decreases |s|, 2
  {
    match ReadValue(s)
    case Bad => Bad
    case Got(head, rest) =>
      if StartsWith(rest, "]") then Got(Item(head, NoItems), rest[1..])
      else if StartsWith(rest, ",") then
        match ReadItems(rest[1..])
        case Bad => Bad
        case Got(tail, rest') => Got(Item(head, tail), rest')
      else Bad
  }

  /** One or more fields, parted by commas and closed by a brace. */
  function ReadFields(s: string): (r: Read<Fields>)
    ensures r.Got? ==> |r.rest| < |s|
    decreases |s|, 2
  {
    if !StartsWith(s, "\"") then Bad
    else
      match ReadString(s[1..])
      case Bad => Bad
      case Got(key, rest) =>
        if !StartsWith(rest, ":") then Bad
        else
          match ReadValue(rest[1..])
          case Bad => Bad
          case Got(value, rest') =>
            if StartsWith(rest', "}") then Got(Field(key, value, NoFields), rest'[1..])
            else if StartsWith(rest', ",") then
              match ReadFields(rest'[1..])
              case Bad => Bad
              case Got(fields, rest'') => Got(Field(key, value, fields), rest'')
            else Bad
  }

  // ---- What is written is read back ----------------------------------------------------------

  lemma Assoc(a: string, b: string, c: string)
    ensures a + b + c == a + (b + c)
  {
  }

  /** The front of a concatenation, and what is left behind it. */
  lemma Front(p: string, s: string)
    ensures StartsWith(p + s, p) && (p + s)[|p|..] == s
  {
  }

  lemma NibblesOf(n: nat)
    requires n < 0x10000
    ensures n == 0x1000 * (n / 0x1000) + 0x100 * (n / 0x100 % 16) + 16 * (n / 16 % 16) + n % 16
  {
    assert n / 0x100 == n / 16 / 16 && n / 0x1000 == n / 0x100 / 16;
  }

  lemma HexDigitBack(d: nat)
    requires d < 16
    ensures IsHexDigit(HexDigit(d)) && HexValue(HexDigit(d)) == d
  {
  }

  lemma Hex4Back(n: nat, s: string)
    requires n < 0x10000
    ensures ReadHex4(Hex4(n) + s) == Got(n, s)
  {
    HexDigitBack(n / 0x1000);
    HexDigitBack(n / 0x100 % 16);
    HexDigitBack(n / 16 % 16);
    HexDigitBack(n % 16);
    NibblesOf(n);
    assert (Hex4(n) + s)[4..] == s;
    hide HexDigit;
    hide HexValue;
  }

  lemma UnicodeBack(c: char, s: string)
    ensures c as int < 0x10000 ==> ReadUnicode(Hex4(c as int) + s) == Got(c, s)
    ensures c as int >= 0x10000 ==>
              var high, low := 0xD800 + (c as int - 0x10000) / 0x400, 0xDC00 + (c as int - 0x10000) % 0x400;
              ReadUnicode(Hex4(high) + ("\\u" + (Hex4(low) + s))) == Got(c, s)
  {
    hide Hex4;
    hide ReadHex4;
    if c as int < 0x10000 {
      Hex4Back(c as int, s);
    } else {
      var high, low := 0xD800 + (c as int - 0x10000) / 0x400, 0xDC00 + (c as int - 0x10000) % 0x400;
      Hex4Back(high, "\\u" + (Hex4(low) + s));
      Front("\\u", Hex4(low) + s);
      Hex4Back(low, s);
      assert c as int == 0x10000 + 0x400 * (high - 0xD800) + (low - 0xDC00);
    }
  }

  predicate IsShort(c: char) {
    c in {'"', '\\'} || c as int in {8, 9, 10, 12, 13}
  }

  /** How a character is written: itself where it is printable ASCII and no quote or backslash, two characters
      for those and five controls, else its UTF-16 units as four hexadecimal digits each; never a capital
      hexadecimal digit, and never anything but printable ASCII. */
  lemma EscapeShape(c: char)
    ensures |Escape(c)| == 1 <==> 32 <= c as int <= 126 && c !in {'"', '\\'}
    ensures |Escape(c)| == 2 <==> c in {'"', '\\'} || c as int in {8, 9, 10, 12, 13}
    ensures |Escape(c)| > 2 ==> |Escape(c)| == (if c as int < 0x10000 then 6 else 12)
    ensures |Escape(c)| > 2 ==> Escape(c)[..2] == "\\u" && (|Escape(c)| == 12 ==> Escape(c)[6..8] == "\\u")
    ensures |Escape(c)| > 2 ==> forall i :: 0 <= i < |Escape(c)| ==> !('A' <= Escape(c)[i] <= 'Z')
    ensures forall i :: 0 <= i < |Escape(c)| ==> 32 <= Escape(c)[i] as int <= 126
  {
    if 32 <= c as int <= 126 || IsShort(c) {
    } else {
      LongShape(c);
    }
  }

  lemma HexDigitShape(d: nat)
    requires d < 16
    ensures 48 <= HexDigit(d) as int <= 57 || 97 <= HexDigit(d) as int <= 102
  {
  }

  lemma Hex4Shape(n: nat)
    requires n < 0x10000
    ensures |Hex4(n)| == 4
    ensures forall i :: 0 <= i < 4 ==> 48 <= Hex4(n)[i] as int <= 57 || 97 <= Hex4(n)[i] as int <= 102
  {
    HexDigitShape(n / 0x1000);
    HexDigitShape(n / 0x100 % 16);
    HexDigitShape(n / 16 % 16);
    HexDigitShape(n % 16);
    hide HexDigit;
  }

  lemma LongShape(c: char)
    requires !(32 <= c as int <= 126) && !IsShort(c)
    ensures |Escape(c)| == (if c as int < 0x10000 then 6 else 12)
    ensures Escape(c)[..2] == "\\u" && (|Escape(c)| == 12 ==> Escape(c)[6..8] == "\\u")
    ensures forall i :: 0 <= i < |Escape(c)| ==>
              32 <= Escape(c)[i] as int <= 126 && !('A' <= Escape(c)[i] <= 'Z')
  {
    var n := c as int;
    if n < 0x10000 {
      Hex4Shape(n);
    } else {
      Hex4Shape(0xD800 + (n - 0x10000) / 0x400);
      Hex4Shape(0xDC00 + (n - 0x10000) % 0x400);
    }
    hide Hex4;
  }

  lemma ShortBack(c: char, s: string)
    requires IsShort(c)
    ensures |Escape(c)| == 2 && Escape(c)[0] == '\\' && ReadChar(Escape(c) + s) == Got(c, s)
  {
    assert (Escape(c) + s)[2..] == s && (Escape(c) + s)[1] == Escape(c)[1];
  }

  lemma LongBack(c: char, s: string)
    requires !(32 <= c as int <= 126) && !IsShort(c)
    ensures Escape(c) != "" && Escape(c)[0] == '\\' && ReadChar(Escape(c) + s) == Got(c, s)
  {
    hide Hex4;
    hide ReadUnicode;
    var n := c as int;
    UnicodeBack(c, s);
    if n < 0x10000 {
      assert Escape(c) == "\\u" + Hex4(n);
      assert (Escape(c) + s)[2..] == Hex4(n) + s;
    } else {
      var high, low := 0xD800 + (n - 0x10000) / 0x400, 0xDC00 + (n - 0x10000) % 0x400;
      assert Escape(c) == "\\u" + Hex4(high) + "\\u" + Hex4(low);
      assert (Escape(c) + s)[2..] == Hex4(high) + ("\\u" + (Hex4(low) + s));
    }
    assert (Escape(c) + s)[0] == '\\' && (Escape(c) + s)[1] == 'u';
    hide Escape;
  }

  lemma EscapeBack(c: char, s: string)
    ensures Escape(c) + s != "" && (Escape(c) + s)[0] != '"'
    ensures ReadChar(Escape(c) + s) == Got(c, s)
  {
    if IsShort(c) {
      ShortBack(c, s);
      hide *;
    } else if 32 <= c as int <= 126 {
      assert Escape(c) == [c] && (Escape(c) + s)[1..] == s;
    } else {
      LongBack(c, s);
      hide *;
    }
  }

  lemma {:induction false} StringBack(a: string, s: string)
    ensures ReadString(StringRest(a) + s) == Got(a, s)
  {
    if a == "" {
      assert (StringRest(a) + s)[1..] == s;
    } else {
      EscapeBack(a[0], StringRest(a[1..]) + s);
      Assoc(Escape(a[0]), StringRest(a[1..]), s);
      StringBack(a[1..], s);
      assert a == [a[0]] + a[1..];
    }
    hide Escape;
    hide ReadChar;
  }

  lemma {:induction false} DigitRunIs(a: string, s: string)
    requires AllDigits(a) && (s == "" || !IsDigit(s[0]))
    ensures DigitRun(a + s) == |a|
  {
    if a != "" {
      assert (a + s)[1..] == a[1..] + s;
      DigitRunIs(a[1..], s);
    } else {
      assert a + s == s;
    }
  }

  lemma {:induction false} NoLeadingZero(n: nat)
    ensures NatText(n)[0] == '0' ==> NatText(n) == "0"
  {
    if n >= 10 {
      NoLeadingZero(n / 10);
      NatRoundTrip(n / 10);
    }
  }

  lemma DigitsBack(n: nat, s: string)
    requires s == "" || !IsDigit(s[0])
    ensures var k := DigitRun(NatText(n) + s);
            && k == |NatText(n)| && (NatText(n) + s)[k..] == s && NatValue((NatText(n) + s)[..k]) == n
            && (k > 1 ==> (NatText(n) + s)[0] != '0')
  {
    hide NatValue;
    DigitRunIs(NatText(n), s);
    NatRoundTrip(n);
    NoLeadingZero(n);
    hide NatText;
    hide DigitRun;
    assert (NatText(n) + s)[..|NatText(n)|] == NatText(n);
  }

  lemma IntBack(n: int, s: string)
    requires s == "" || !IsDigit(s[0])
    ensures ReadInt(IntText(n) + s) == Got(n, s)
  {
    hide NatText;
    hide NatValue;
    hide DigitRun;
    var m: nat := if n < 0 then 0 - n else n;
    IntTextHead(n, s);
    DigitsBack(m, s);
    assert n >= 0 ==> !StartsWith(IntText(n) + s, "-");
    assert n < 0 ==> StartsWith(IntText(n) + s, "-");
  }

  /** What may follow a complete value: the end of the text, or the next separator. */
  predicate Follow(s: string) {
    s == "" || s[0] in {',', ']', '}'}
  }

  /** The first character of a value's text tells its kind. */
  lemma TextHead(v: Json, s: string)
    ensures Text(v) + s != ""
    ensures var c := (Text(v) + s)[0];
      && (c == 'n' <==> v.Null?)
      && (c == 't' <==> v == Bool(true))
      && (c == 'f' <==> v == Bool(false))
      && (c == '"' <==> v.Str?)
      && (c == '[' <==> v.Arr?)
      && (c == '{' <==> v.Obj?)
      && c != ']'
  {
    if v.Num? {
      IntTextHead(v.n, s);
    }
  }

  lemma Rest(c: char, a: string, s: string)
    ensures ([c] + a) + s == [c] + (a + s) && ([c] + a + s)[0] == c && ([c] + a + s)[1..] == a + s
  {
  }

  /** Reading the text of a value, followed by anything that may follow a value, gives the value back and
      leaves what followed. */
  lemma {:induction false} TextBack(v: Json, s: string)
    requires Follow(s)
    ensures ReadValue(Text(v) + s) == Got(v, s)
    decreases v, 1
  {
    TextHead(v, s);
    match v
    case Null => Front("null", s);
    case Bool(b) => Front(Text(v), s);
    case Num(n) => IntBack(n, s);
    case Str(a) =>
      Rest('"', StringRest(a), s);
      StringBack(a, s);
    case Arr(items) =>
      Rest('[', ItemsText(items), s);
      if items.NoItems? {
        Front("]", s);
        assert (Text(v) + s)[2..] == s;
      } else {
        ItemsBack(items, s);
      }
    case Obj(fields) =>
      Rest('{', FieldsText(fields), s);
      if fields.NoFields? {
        Front("}", s);
        assert (Text(v) + s)[2..] == s;
      } else {
        FieldsBack(fields, s);
      }
  }

  lemma {:induction false} ItemsBack(items: Items, s: string)
    requires items.Item?
    ensures ReadItems(ItemsText(items) + s) == Got(items, s) && !StartsWith(ItemsText(items) + s, "]")
    decreases items, 0
  {
    var more := ItemsMore(items.tail);
    Assoc(Text(items.head), more, s);
    TextHead(items.head, more + s);
    if items.tail.NoItems? {
      Rest(']', "", s);
    } else {
      Rest(',', ItemsText(items.tail), s);
      ItemsBack(items.tail, s);
    }
    TextBack(items.head, more + s);
    hide ReadValue;
    hide Text;
  }

  lemma {:induction false} FieldsBack(fields: Fields, s: string)
    requires fields.Field?
    ensures ReadFields(FieldsText(fields) + s) == Got(fields, s) && !StartsWith(FieldsText(fields) + s, "}")
    decreases fields, 0
  {
    hide ReadValue;
    hide ReadString;
    hide Text;
    hide StringRest;
    var more := FieldsMore(fields.rest);
    var value := Text(fields.value) + more;
    Rest('"', StringRest(fields.key) + (":" + value), s);
    Assoc(StringRest(fields.key), ":" + value, s);
    StringBack(fields.key, (":" + value) + s);
    Rest(':', value, s);
    Assoc(Text(fields.value), more, s);
    if fields.rest.NoFields? {
      Rest('}', "", s);
    } else {
      Rest(',', FieldsText(fields.rest), s);
      FieldsBack(fields.rest, s);
    }
    TextBack(fields.value, more + s);
  }

  /** The text of a value, followed by anything that may follow a value, determines the value. */
  lemma TextUnique(v: Json, w: Json, s: string, t: string)
    requires Text(v) + s == Text(w) + t
    requires Follow(s) && Follow(t)
    ensures v == w && s == t
  {
    TextBack(v, s);
    TextBack(w, t);
  }

  // ---- Sorting forgets exactly the insertion order -------------------------------------------

  lemma BeforeIsOrder(a: string, b: string)
    ensures Before(a, b) || a == b || Before(b, a)
    ensures !(Before(a, b) && Before(b, a)) && !Before(a, a)
    decreases |a|
  {
    if a != "" && b != "" && a[0] == b[0] {
      BeforeIsOrder(a[1..], b[1..]);
      assert a == [a[0]] + a[1..] && b == [b[0]] + b[1..];
    }
    if a != "" {
      BeforeIsOrder(a[1..], a[1..]);
    }
  }

  lemma BeforeTransitive(a: string, b: string, c: string)
    requires Before(a, b) && Before(b, c)
    ensures Before(a, c)
    decreases |a|
  {
    if a != "" && a[0] == b[0] == c[0] {
      BeforeTransitive(a[1..], b[1..], c[1..]);
    }
  }

  /** Code point order, on indices: a proper prefix comes first, else the first difference decides. */
  ghost predicate Precedes(k: string, q: string) {
    || (|k| < |q| && k == q[..|k|])
    || (exists i :: 0 <= i < |k| && i < |q| && k[..i] == q[..i] && k[i] < q[i])
  }

  lemma {:induction false} BeforeIff(k: string, q: string)
    ensures Before(k, q) <==> Precedes(k, q)
  {
    if k != "" && q != "" {
      BeforeIff(k[1..], q[1..]);
      if k[0] == q[0] {
        SameHead(k, q);
      } else if k[0] < q[0] {
        assert k[..0] == q[..0] && k[0] < q[0];
      } else {
        assert forall i :: 0 < i <= |k| && i <= |q| ==> k[..i][0] != q[..i][0];
      }
    }
  }

  lemma SameHead(k: string, q: string)
    requires k != "" && q != "" && k[0] == q[0]
    ensures Precedes(k, q) <==> Precedes(k[1..], q[1..])
  {
    var k', q' := k[1..], q[1..];
    assert k == [k[0]] + k' && q == [q[0]] + q';
    assert |k| < |q| ==> q[..|k|] == [q[0]] + q'[..|k'|];
    if i :| 0 <= i < |k| && i < |q| && k[..i] == q[..i] && k[i] < q[i] {
      assert k'[..i - 1] == k[..i][1..] && q'[..i - 1] == q[..i][1..];
    }
    if i :| 0 <= i < |k'| && i < |q'| && k'[..i] == q'[..i] && k'[i] < q'[i] {
      assert k[..i + 1] == [k[0]] + k'[..i] && q[..i + 1] == [q[0]] + q'[..i];
      assert k[i + 1] < q[i + 1];
    }
  }

  /** At every depth the keys of an object are in code point order. */
  ghost predicate InOrder(v: Json) {
    match v
    case Arr(items) => ItemsInOrder(items)
    case Obj(fields) => FieldsInOrder(fields)
    case _ => true
  }

  ghost predicate ItemsInOrder(items: Items) {
    items.Item? ==> InOrder(items.head) && ItemsInOrder(items.tail)
  }

  ghost predicate FieldsInOrder(fields: Fields) {
    fields.Field? ==>
      && InOrder(fields.value) && FieldsInOrder(fields.rest)
      && (fields.rest.Field? ==> Precedes(fields.key, fields.rest.key))
  }

  predicate Ascending(fs: Fields) {
    match fs
    case NoFields => true
    case Field(k, _, rest) => (rest.NoFields? || Before(k, rest.key)) && Ascending(rest)
  }

  /** The first key of an ascending object is before all others. */
  lemma {:induction false} FirstKey(fs: Fields, q: string)
    requires Ascending(fs) && fs.Field? && q in Keys(fs.rest)
    ensures Before(fs.key, q) && fs.key != q
  {
    if q != fs.rest.key {
      FirstKey(fs.rest, q);
      BeforeTransitive(fs.key, fs.rest.key, q);
    }
    BeforeIsOrder(fs.key, q);
  }

  lemma {:induction false} InsertKeeps(k: string, v: Json, fs: Fields)
    requires k !in Keys(fs)
    ensures Keys(Insert(k, v, fs)) == {k} + Keys(fs)
    ensures forall q :: q in {k} + Keys(fs) ==>
              Get(Insert(k, v, fs), q) == if q == k then v else Get(fs, q)
    ensures Ascending(fs) ==> Ascending(Insert(k, v, fs))
  {
    if fs.Field? && !Before(k, fs.key) {
      BeforeIsOrder(k, fs.key);
      InsertKeeps(k, v, fs.rest);
    }
  }

  lemma {:induction false} SortedFieldsKeep(fs: Fields)
    requires WellFormedFields(fs)
    ensures Keys(SortedFields(fs)) == Keys(fs) && Ascending(SortedFields(fs))
    ensures forall q :: q in Keys(fs) ==> Get(SortedFields(fs), q) == Sorted(Get(fs, q))
  {
    if fs.Field? {
      SortedFieldsKeep(fs.rest);
      InsertKeeps(fs.key, Sorted(fs.value), SortedFields(fs.rest));
    }
  }

  /** Ascending objects with the same keys and values are the same list of fields. */
  lemma {:induction false} AscendingUnique(fs: Fields, gs: Fields)
    requires Ascending(fs) && Ascending(gs) && Keys(fs) == Keys(gs)
    requires forall q :: q in Keys(fs) ==> Get(fs, q) == Get(gs, q)
    ensures fs == gs
  {
    if fs.Field? {
      assert fs.key in Keys(gs) && gs.Field? && gs.key in Keys(fs);
      if fs.key != gs.key {
        FirstKey(fs, gs.key);
        FirstKey(gs, fs.key);
        BeforeIsOrder(fs.key, gs.key);
        assert false;
      }
      forall q | q in Keys(fs.rest) ensures q != fs.key { FirstKey(fs, q); }
      forall q | q in Keys(gs.rest) ensures q != gs.key { FirstKey(gs, q); }
      assert Keys(fs.rest) == Keys(fs) - {fs.key} == Keys(gs.rest);
      forall q | q in Keys(fs.rest) ensures Get(fs.rest, q) == Get(gs.rest, q) {
        assert Get(fs, q) == Get(gs, q);
      }
      AscendingUnique(fs.rest, gs.rest);
    }
  }

  lemma {:induction false} SortedInOrder(v: Json)
    requires WellFormed(v)
    ensures InOrder(Sorted(v))
    decreases v, 1
  {
    match v
    case Arr(items) => SortedItemsInOrder(items);
    case Obj(fields) => SortedFieldsInOrder(fields);
    case _ =>
  }

  lemma {:induction false} SortedItemsInOrder(items: Items)
    requires WellFormedItems(items)
    ensures ItemsInOrder(SortedItems(items))
    decreases items, 0
  {
    if items.Item? {
      SortedInOrder(items.head);
      SortedItemsInOrder(items.tail);
    }
  }

  lemma {:induction false} SortedFieldsInOrder(fields: Fields)
    requires WellFormedFields(fields)
    ensures FieldsInOrder(SortedFields(fields))
    decreases fields, 0
  {
    if fields.Field? {
      SortedInOrder(fields.value);
      SortedFieldsInOrder(fields.rest);
      SortedFieldsKeep(fields.rest);
      InsertInOrder(fields.key, Sorted(fields.value), SortedFields(fields.rest));
    }
  }

  lemma {:induction false} InsertInOrder(k: string, v: Json, fs: Fields)
    requires k !in Keys(fs) && InOrder(v) && FieldsInOrder(fs)
    ensures FieldsInOrder(Insert(k, v, fs))
    ensures Insert(k, v, fs).Field?
    ensures Insert(k, v, fs).key == k || (fs.Field? && Insert(k, v, fs).key == fs.key)
  {
    if fs.Field? {
      BeforeIsOrder(k, fs.key);
      BeforeIff(k, fs.key);
      BeforeIff(fs.key, k);
      if !Before(k, fs.key) {
        InsertInOrder(k, v, fs.rest);
      }
    }
    hide Precedes;
    hide Before;
  }

  /** Sorting changes nothing but the order of the fields. */
  lemma {:induction false} SortedSame(v: Json)
    requires WellFormed(v)
    ensures Same(v, Sorted(v))
    decreases v, 1
  {
    match v
    case Arr(items) => SortedItemsSame(items);
    case Obj(fields) =>
      SortedFieldsKeep(fields);
      SortedFieldsSame(fields, SortedFields(fields));
    case _ =>
  }

  lemma {:induction false} SortedItemsSame(items: Items)
    requires WellFormedItems(items)
    ensures SameItems(items, SortedItems(items))
    decreases items, 0
  {
    if items.Item? {
      SortedSame(items.head);
      SortedItemsSame(items.tail);
    }
  }

  lemma {:induction false} SortedFieldsSame(fields: Fields, all: Fields)
    requires WellFormedFields(fields)
    requires forall q :: q in Keys(fields) ==> q in Keys(all) && Get(all, q) == Sorted(Get(fields, q))
    ensures SameFields(fields, all)
    decreases fields, 0
  {
    if fields.Field? {
      SortedSame(fields.value);
      assert Get(fields, fields.key) == fields.value;
      forall q | q in Keys(fields.rest) ensures q in Keys(all) && Get(all, q) == Sorted(Get(fields.rest, q)) {
        assert Get(fields, q) == Get(fields.rest, q);
      }
      SortedFieldsSame(fields.rest, all);
    }
  }

  /** Two payloads have the same sorted form exactly when they are equal as dictionaries. */
  lemma {:induction false} SortedIffSame(v: Json, w: Json)
    requires WellFormed(v) && WellFormed(w)
    ensures Sorted(v) == Sorted(w) <==> Same(v, w)
    decreases v, 1
  {
    match (v, w)
    case (Arr(xs), Arr(ys)) => SortedItemsIffSame(xs, ys);
    case (Obj(fs), Obj(gs)) =>
      SortedFieldsKeep(fs);
      SortedFieldsKeep(gs);
      if Keys(fs) == Keys(gs) {
        FieldsIffSame(fs, gs);
        if SameFields(fs, gs) {
          AscendingUnique(SortedFields(fs), SortedFields(gs));
        }
      }
    case _ =>
  }

  lemma {:induction false} SortedItemsIffSame(xs: Items, ys: Items)
    requires WellFormedItems(xs) && WellFormedItems(ys)
    ensures SortedItems(xs) == SortedItems(ys) <==> SameItems(xs, ys)
    decreases xs, 0
  {
    if xs.Item? && ys.Item? {
      SortedIffSame(xs.head, ys.head);
      SortedItemsIffSame(xs.tail, ys.tail);
    }
  }

  lemma {:induction false} FieldsIffSame(fs: Fields, gs: Fields)
    requires WellFormedFields(fs) && WellFormedFields(gs) && Keys(fs) <= Keys(gs)
    ensures SameFields(fs, gs) <==>
            forall q :: q in Keys(fs) ==> Sorted(Get(fs, q)) == Sorted(Get(gs, q))
    decreases fs, 0
  {
    if fs.Field? {
      GetWellFormed(gs, fs.key);
      SortedIffSame(fs.value, Get(gs, fs.key));
      FieldsIffSame(fs.rest, gs);
      assert forall q :: q in Keys(fs.rest) ==> Get(fs, q) == Get(fs.rest, q);
      assert Get(fs, fs.key) == fs.value;
    }
  }

  lemma GetWellFormed(fs: Fields, k: string)
    requires WellFormedFields(fs) && k in Keys(fs)
    ensures WellFormed(Get(fs, k))
  {
  }

  /** The canonical text of two payloads is the same exactly when the payloads are equal as
      dictionaries: insertion order never matters and nothing else is ever lost. */
  lemma CanonicalIffSame(v: Json, w: Json)
    requires WellFormed(v) && WellFormed(w)
    ensures Canonical(v) == Canonical(w) <==> Same(v, w)
  {
    SortedIffSame(v, w);
    if Canonical(v) == Canonical(w) {
      assert Canonical(v) + "" == Canonical(w) + "";
      TextUnique(Sorted(v), Sorted(w), "", "");
    }
  }

  /** What a text stands for, when it stands for a value. */
  function Parse(s: string): Read<Json> {
    var r := ReadValue(s);
    if r.Got? && r.rest != "" then Bad else r
  }

  /** Reading the canonical text gives a value that is equal to the payload as a dictionary, with its keys in
      code point order at every depth. */
  lemma CanonicalParses(v: Json)
    requires WellFormed(v)
    ensures Parse(Canonical(v)) == Got(Sorted(v), "")
    ensures Same(v, Sorted(v)) && InOrder(Sorted(v))
  {
    assert Canonical(v) + "" == Canonical(v);
    TextBack(Sorted(v), "");
    SortedSame(v);
    SortedInOrder(v);
  }

  /** Under a collision-free hash, equal payload hashes mean equal payloads, and conversely. */
  lemma PayloadHashBinds(hash: string -> string, v: Json, w: Json)
    requires WellFormed(v) && WellFormed(w)
    requires forall a, b :: hash(a) == hash(b) ==> a == b
    ensures PayloadHash(hash, v) == PayloadHash(hash, w) <==> Same(v, w)
  {
    CanonicalIffSame(v, w);
  }
}
