/** A reader of JSON text, after sections 2 to 7 of RFC 8259, for texts without insignificant
    white space. When lenient it also reads what a printer leaves for undefined: an empty place
    between commas or brackets, and the word `undefined` as the value of a member. */
module JsonReader {
  import opened CanonicalJson

  datatype Read<+T> = Fails | Reads(value: T, rest: Text)

  // ---------- strings ----------

  /** The value of a hexadecimal digit of either case. */
  function HexValue(u: CodeUnit): Read<int>
    ensures HexValue(u).Reads? ==> 0 <= HexValue(u).value < 16
  {
    if 48 <= u <= 57 then Reads(u - 48, [])
    else if 65 <= u <= 70 then Reads(u - 55, [])
    else if 97 <= u <= 102 then Reads(u - 87, [])
    else Fails
  }

  /** The unit that a two-character escape sequence stands for. */
  function ShortEscape(u: CodeUnit): Read<CodeUnit> {
    match u
    case 34 => Reads(34, [])
    case 47 => Reads(47, [])
    case 92 => Reads(92, [])
    case 98 => Reads(8, [])
    case 102 => Reads(12, [])
    case 110 => Reads(10, [])
    case 114 => Reads(13, [])
    case 116 => Reads(9, [])
    case _ => Fails
  }

  /** One character: an escape, or one or two code units that stand for themselves. */
  function ReadChar(x: Text): (r: Read<Text>)
    ensures r.Reads? ==> |r.rest| < |x| && r.value != []
  {
    if x == [] || x[0] == 34 || x[0] < 32 then Fails
    else if x[0] == 92 then
      if |x| >= 6 && x[1] == 117 then
        match (HexValue(x[2]), HexValue(x[3]), HexValue(x[4]), HexValue(x[5]))
        case (Reads(a, _), Reads(b, _), Reads(c, _), Reads(d, _)) =>
          Reads([4096 * a + 256 * b + 16 * c + d], x[6..])
        case _ => Fails
      else if |x| >= 2 && ShortEscape(x[1]).Reads? then Reads([ShortEscape(x[1]).value], x[2..])
      else Fails
    else if 0xD800 <= x[0] < 0xDC00 then
      if |x| >= 2 && 0xDC00 <= x[1] < 0xE000 then Reads(x[..2], x[2..]) else Fails
    else if 0xDC00 <= x[0] < 0xE000 then Fails
    else Reads([x[0]], x[1..])
  }

  /** The characters up to the closing quotation mark. */
  function ReadChars(x: Text): (r: Read<Text>)
    ensures r.Reads? ==> |r.rest| < |x|
    decreases |x|
  {
    if x != [] && x[0] == 34 then Reads([], x[1..])
    else
      match ReadChar(x)
      case Fails => Fails
      case Reads(c, rest) =>
        match ReadChars(rest)
        case Fails => Fails
        case Reads(s, last) => Reads(c + s, last)
  }

  function ReadString(x: Text): (r: Read<Text>)
    ensures r.Reads? ==> |r.rest| < |x|
  {
    if x != [] && x[0] == 34 then ReadChars(x[1..]) else Fails
  }

  // ---------- values ----------

  predicate StartsWith(x: Text, word: Text) {
    |word| <= |x| && x[..|word|] == word
  }

  /** A number reaches as far as its units do. */
  function NumberReach(x: Text): (n: nat)
    ensures n <= |x|
  {
    if x == [] || !IsNumberUnit(x[0]) then 0 else 1 + NumberReach(x[1..])
  }

  function ReadValue(x: Text, lenient: bool): (r: Read<Json>)
    ensures r.Reads? ==> |r.rest| < |x|
    decreases |x|, 0
  {
    if x == [] then Fails
    else if x[0] == 34 then
      match ReadString(x)
      case Fails => Fails
      case Reads(s, rest) => Reads(Str(s), rest)
    else if x[0] == 91 then
      if |x| > 1 && x[1] == 93 then Reads(Arr([]), x[2..])
      else
        match ReadItems(x[1..], lenient)
        case Fails => Fails
        case Reads(items, rest) => Reads(Arr(items), rest)
    else if x[0] == 123 then
      if |x| > 1 && x[1] == 125 then Reads(Obj([]), x[2..])
      else
        match ReadMembers(x[1..], lenient)
        case Fails => Fails
        case Reads(fields, rest) => Reads(Obj(fields), rest)
    else if StartsWith(x, [110, 117, 108, 108]) then Reads(Null, x[4..])
    else if StartsWith(x, [116, 114, 117, 101]) then Reads(Bool(true), x[4..])
    else if StartsWith(x, [102, 97, 108, 115, 101]) then Reads(Bool(false), x[5..])
    else if x[0] == 45 || 48 <= x[0] <= 57 then
      Reads(Number(x[..NumberReach(x)]), x[NumberReach(x)..])
    else Fails
  }

  function ReadItem(x: Text, lenient: bool): (r: Read<Json>)
    ensures r.Reads? ==> |r.rest| <= |x|
    decreases |x|, 1
  {
    if lenient && x != [] && (x[0] == 44 || x[0] == 93) then Reads(Undefined, x) else ReadValue(x, lenient)
  }

  /** One item or more, up to the closing bracket. */
  function ReadItems(x: Text, lenient: bool): (r: Read<seq<Json>>)
    ensures r.Reads? ==> |r.rest| < |x|
    decreases |x|, 2
  {
    match ReadItem(x, lenient)
    case Fails => Fails
    case Reads(item, rest) =>
      if rest == [] then Fails
      else if rest[0] == 93 then Reads([item], rest[1..])
      else if rest[0] == 44 then
        match ReadItems(rest[1..], lenient)
        case Fails => Fails
        case Reads(items, last) => Reads([item] + items, last)
      else Fails
  }

  function ReadMemberValue(x: Text, lenient: bool): (r: Read<Json>)
    ensures r.Reads? ==> |r.rest| < |x|
    decreases |x|, 1
  {
    if lenient && StartsWith(x, UNDEFINED_TEXT) then Reads(Undefined, x[|UNDEFINED_TEXT|..])
    else ReadValue(x, lenient)
  }

  /** One member or more, up to the closing brace. */
  function ReadMembers(x: Text, lenient: bool): (r: Read<seq<Field>>)
    ensures r.Reads? ==> |r.rest| < |x|
    decreases |x|, 2
  {
    match ReadString(x)
    case Fails => Fails
    case Reads(key, afterKey) =>
      if afterKey == [] || afterKey[0] != 58 then Fails
      else
        match ReadMemberValue(afterKey[1..], lenient)
        case Fails => Fails
        case Reads(value, rest) =>
          if rest == [] then Fails
          else if rest[0] == 125 then Reads([Field(key, value)], rest[1..])
          else if rest[0] == 44 then
            match ReadMembers(rest[1..], lenient)
            case Fails => Fails
            case Reads(fields, last) => Reads([Field(key, value)] + fields, last)
          else Fails
  }
}
