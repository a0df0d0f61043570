/**
 D-Bus object paths and the numbers at their end: std::to_string, std::stoi, boost::split on '/'
 and find_last_of('/').
 */
module Paths {
  import opened Wrappers
  import opened DeviceIds
  import opened Names

  const INT_MAX := 0x7FFF_FFFF
  const INT_MIN := -0x8000_0000

  // ---- std::stoi and std::to_string ----

  predicate IsSpace(c: char) {
    c == ' ' || '\t' <= c <= '\r'
  }

  /** The value of a digit character, or 36 for any other character. */
  function DigitValue(c: char): int {
    if '0' <= c <= '9' then c as int - '0' as int
    else if 'a' <= c <= 'z' then c as int - 'a' as int + 10
    else if 'A' <= c <= 'Z' then c as int - 'A' as int + 10
    else 36
  }

  predicate IsDigit(c: char, base: int) {
    DigitValue(c) < base
  }

  function SkipSpaces(s: string): string {
    if s != "" && IsSpace(s[0]) then SkipSpaces(s[1..]) else s
  }

  function TakeDigits(s: string, base: int): string {
    if s != "" && IsDigit(s[0], base) then [s[0]] + TakeDigits(s[1..], base) else ""
  }

  function Value(digits: string, base: int): int {
    if digits == "" then 0
    else Value(digits[..|digits| - 1], base) * base + DigitValue(digits[|digits| - 1])
  }

  function DropSign(s: string): string {
    if s != "" && (s[0] == '-' || s[0] == '+') then s[1..] else s
  }

  // strtol skips "0x" in base 16 only when a digit follows it.
  function DropHexPrefix(s: string, base: int): string {
    if base == 16 && |s| >= 3 && s[0] == '0' && (s[1] == 'x' || s[1] == 'X') && IsDigit(s[2], 16)
    then s[2..] else s
  }

  /** std::stoi(s, nullptr, base): leading blanks, a sign, then as many digits as there are. */
  function Stoi(s: string, base: int): Result<int> {
    var t := SkipSpaces(s);
    var digits := TakeDigits(DropHexPrefix(DropSign(t), base), base);
    if digits == "" then Err(InvalidArgument)
    else
      var n := if t[0] == '-' then -Value(digits, base) else Value(digits, base);
      if INT_MIN <= n <= INT_MAX then Ok(n) else Err(OutOfRange)
  }

  function DigitChar(d: int): char
    requires 0 <= d < 36
  {
    if d < 10 then '0' + d as char else 'a' + (d - 10) as char
  }

  /** The digits of n, the higher ones as lower-case letters. */
  function Numeral(n: nat, base: int): string
    requires 2 <= base <= 36
  {
    if n < base then [DigitChar(n)] else Numeral(n / base, base) + [DigitChar(n % base)]
  }

  /** std::to_string for a non-negative int. */
  function Decimal(n: nat): string {
    Numeral(n, 10)
  }

  lemma DigitCharValue(d: int)
    requires 0 <= d < 36
    ensures DigitValue(DigitChar(d)) == d
  {
  }

  lemma DivMod(n: nat, base: int)
    requires 2 <= base <= n
    ensures 0 <= n / base < n && 0 <= n % base < base
    ensures n / base * base + n % base == n
  {
  }

  lemma ValueOfAppend(front: string, c: char, base: int)
    ensures Value(front + [c], base) == Value(front, base) * base + DigitValue(c)
  {
    assert (front + [c])[..|front|] == front;
  }

  lemma OneDigit(n: nat, base: int)
    requires n < base <= 36
    ensures IsDigit(DigitChar(n), base) && Value([DigitChar(n)], base) == n
  {
    DigitCharValue(n);
    assert [DigitChar(n)][..0] == "";
  }

  lemma {:induction false} NumeralDigits(n: nat, base: int)
    requires 2 <= base <= 36
    ensures Numeral(n, base) != ""
    ensures forall i :: 0 <= i < |Numeral(n, base)| ==> IsDigit(Numeral(n, base)[i], base)
    ensures Value(Numeral(n, base), base) == n
  {
    hide DigitChar, DigitValue, Value, IsDigit;
    if n < base {
      OneDigit(n, base);
    } else {
      DivMod(n, base);
      var q, d := n / base, n % base;
      OneDigit(d, base);
      DigitCharValue(d);
      NumeralDigits(q, base);
      ValueOfAppend(Numeral(q, base), DigitChar(d), base);
    }
  }

  lemma DecimalDigits(n: nat)
    ensures Decimal(n) != ""
    ensures forall i :: 0 <= i < |Decimal(n)| ==> '0' <= Decimal(n)[i] <= '9'
    ensures Value(Decimal(n), 10) == n
  {
    NumeralDigits(n, 10);
    forall i | 0 <= i < |Decimal(n)|
      ensures '0' <= Decimal(n)[i] <= '9'
    {
      assert IsDigit(Decimal(n)[i], 10);
    }
  }

  // ---- What stoi accepts ----

  predicate IsBlank(c: char) {
    c in {' ', '\t', '\n', '\U{0B}', '\U{0C}', '\r'}
  }

  /** A letter or digit that a numeral of this base may have. */
  predicate BelongsTo(c: char, base: int) {
    '0' <= c <= '9' || (base == 16 && ('a' <= c <= 'f' || 'A' <= c <= 'F'))
  }

  function UpperCase(c: char): char {
    if 'a' <= c <= 'z' then 'A' + (c - 'a') else c
  }

  /** The numeral of n in either case, after any number of zeros. */
  ghost predicate Spells(digits: string, n: nat, base: int)
    requires 2 <= base <= 36
  {
    var num := Numeral(n, base);
    && |num| <= |digits|
    && (forall i :: 0 <= i < |digits| - |num| ==> digits[i] == '0')
    && (forall i :: 0 <= i < |num| ==>
          digits[|digits| - |num| + i] == num[i] || digits[|digits| - |num| + i] == UpperCase(num[i]))
  }

  lemma DigitsBelong(c: char, base: int)
    requires base == 10 || base == 16
    ensures IsDigit(c, base) <==> BelongsTo(c, base)
    ensures IsSpace(c) <==> IsBlank(c)
    ensures IsDigit(c, base) ==> !IsSpace(c) && c != '+' && c != '-'
  {
  }

  lemma {:induction false} TakeAllDigits(s: string, rest: string, base: int)
    requires forall i :: 0 <= i < |s| ==> IsDigit(s[i], base)
    requires rest == "" || !IsDigit(rest[0], base)
    ensures TakeDigits(s + rest, base) == s
  {
    if s == "" {
      assert s + rest == rest;
    } else {
      TakeAllDigits(s[1..], rest, base);
      assert (s + rest)[1..] == s[1..] + rest;
      assert s == [s[0]] + s[1..];
    }
  }

  lemma {:induction false} SkipAllSpaces(blanks: string, rest: string)
    requires forall i :: 0 <= i < |blanks| ==> IsSpace(blanks[i])
    requires rest == "" || !IsSpace(rest[0])
    ensures SkipSpaces(blanks + rest) == rest
  {
    if blanks == "" {
      assert blanks + rest == rest;
    } else {
      SkipAllSpaces(blanks[1..], rest);
      assert (blanks + rest)[1..] == blanks[1..] + rest;
    }
  }

  lemma {:induction false} ValueOfSpelling(digits: string, num: string, base: int)
    requires |num| <= |digits|
    requires forall i :: 0 <= i < |digits| - |num| ==> DigitValue(digits[i]) == 0
    requires forall i :: 0 <= i < |num| ==> DigitValue(digits[|digits| - |num| + i]) == DigitValue(num[i])
    ensures Value(digits, base) == Value(num, base)
  {
    if num != "" {
      ValueOfSpelling(digits[..|digits| - 1], num[..|num| - 1], base);
      assert DigitValue(digits[|digits| - |num| + (|num| - 1)]) == DigitValue(num[|num| - 1]);
    } else if digits != "" {
      ValueOfSpelling(digits[..|digits| - 1], num, base);
    }
  }

  lemma UpperCaseValue(c: char, base: int)
    requires (base == 10 || base == 16) && IsDigit(c, base)
    ensures DigitValue(UpperCase(c)) == DigitValue(c)
  {
  }

  lemma SpellingIsNumber(digits: string, n: nat, base: int)
    requires (base == 10 || base == 16) && Spells(digits, n, base)
    ensures digits != "" && Value(digits, base) == n
    ensures forall i :: 0 <= i < |digits| ==> IsDigit(digits[i], base)
  {
    hide Value, Numeral, UpperCase;
    NumeralDigits(n, base);
    var num := Numeral(n, base);
    var k := |digits| - |num|;
    forall i | 0 <= i < |num|
      ensures DigitValue(digits[k + i]) == DigitValue(num[i]) && IsDigit(digits[k + i], base)
    {
      assert IsDigit(num[i], base);
      UpperCaseValue(num[i], base);
    }
    assert forall i :: 0 <= i < k ==> IsDigit(digits[i], base) && DigitValue(digits[i]) == 0;
    ValueOfSpelling(digits, num, base);
    hide DigitValue, IsDigit;
    forall i | 0 <= i < |digits|
      ensures IsDigit(digits[i], base)
    {
      if i >= k {
        var j := i - k;
        assert DigitValue(digits[k + j]) == DigitValue(num[j]) && IsDigit(digits[k + j], base);
      }
    }
  }

  function Signed(sign: string, n: nat): int {
    var i: int := n;
    if sign == "-" then -i else i
  }

  function InIntRange(n: int): Result<int> {
    if -0x8000_0000 <= n < 0x8000_0000 then Ok(n) else Err(OutOfRange)
  }

  /**
   What std::stoi makes of a text: blanks, a sign, in base 16 perhaps "0x", then a number in either case, and
   anything that cannot continue it. The number is returned with its sign if an int can hold it.
   */
  lemma StoiMeaning(blanks: string, sign: string, prefix: string, digits: string, n: nat, tail: string, base: int)
    requires forall i :: 0 <= i < |blanks| ==> IsBlank(blanks[i])
    requires sign in {"", "+", "-"}
    requires (base == 10 && prefix == "") || (base == 16 && prefix in {"", "0x", "0X"})
    requires Spells(digits, n, base)
    requires tail == "" || !BelongsTo(tail[0], base)
    requires base == 16 && prefix == "" ==> tail == "" || (tail[0] != 'x' && tail[0] != 'X')
    ensures Stoi(blanks + (sign + (prefix + (digits + tail))), base) == InIntRange(Signed(sign, n))
  {
    hide Value, Numeral, Spells, DigitValue, BelongsTo, IsBlank;
    SpellingIsNumber(digits, n, base);
    DigitsBelong(digits[0], base);
    if tail != "" {
      DigitsBelong(tail[0], base);
    }
    BlanksAreSpaces(blanks);
    var body := digits + tail;
    var rest := sign + (prefix + body);
    PrefixDropped(prefix, digits, tail, base);
    DigitsBelong((prefix + body)[0], base);
    SignDropped(sign, prefix + body);
    SkipAllSpaces(blanks, rest);
    TakeAllDigits(digits, tail, base);
    hide IsDigit, IsSpace, SkipSpaces, TakeDigits, DropSign, DropHexPrefix;
  }

  lemma BlanksAreSpaces(blanks: string)
    requires forall i :: 0 <= i < |blanks| ==> IsBlank(blanks[i])
    ensures forall i :: 0 <= i < |blanks| ==> IsSpace(blanks[i])
  {
    forall i | 0 <= i < |blanks|
      ensures IsSpace(blanks[i])
    {
      DigitsBelong(blanks[i], 10);
    }
  }

  lemma PrefixDropped(prefix: string, digits: string, tail: string, base: int)
    requires (base == 10 && prefix == "") || (base == 16 && prefix in {"", "0x", "0X"})
    requires digits != "" && forall i :: 0 <= i < |digits| ==> IsDigit(digits[i], base)
    requires base == 16 && prefix == "" ==> tail == "" || (tail[0] != 'x' && tail[0] != 'X')
    ensures DropHexPrefix(prefix + (digits + tail), base) == digits + tail
    ensures IsDigit((prefix + (digits + tail))[0], base)
  {
    var body := digits + tail;
    if prefix == "" {
      assert prefix + body == body;
      if |body| >= 2 {
        assert body[1] == if |digits| >= 2 then digits[1] else tail[0];
      }
    } else {
      assert (prefix + body)[2..] == body;
    }
  }

  lemma SignDropped(sign: string, body: string)
    requires sign in {"", "+", "-"} && body != "" && !IsSpace(body[0]) && body[0] != '+' && body[0] != '-'
    ensures DropSign(sign + body) == body
    ensures sign + body != "" && !IsSpace((sign + body)[0])
    ensures (sign + body)[0] == '-' <==> sign == "-"
  {
    if sign == "" {
      assert sign + body == body;
    } else {
      assert (sign + body)[1..] == body;
    }
  }

  /** A text without a number is refused: blanks and a sign are not enough. */
  lemma StoiWithoutNumber(blanks: string, sign: string, tail: string, base: int)
    requires base == 10 || base == 16
    requires forall i :: 0 <= i < |blanks| ==> IsBlank(blanks[i])
    requires sign in {"", "+", "-"}
    requires tail == "" || !BelongsTo(tail[0], base)
    requires sign == "" && tail != "" ==> !IsBlank(tail[0]) && tail[0] != '+' && tail[0] != '-'
    ensures Stoi(blanks + (sign + tail), base) == Err(InvalidArgument)
  {
    BlanksAreSpaces(blanks);
    if tail != "" {
      DigitsBelong(tail[0], base);
    }
    if sign == "" {
      assert sign + tail == tail;
    } else {
      assert (sign + tail)[1..] == tail;
    }
    SkipAllSpaces(blanks, sign + tail);
    assert TakeDigits(tail, base) == "";
  }

  /** Printing and parsing invert each other for every value an int can hold. */
  lemma PrintParse(n: nat)
    ensures Stoi(Decimal(n), 10) == if n <= INT_MAX then Ok(n) else Err(OutOfRange)
  {
    DecimalDigits(n);
    TakeAllDigits(Decimal(n), "", 10);
    assert Decimal(n) + "" == Decimal(n);
  }

  // ---- Path components ----

  predicate IsBase(path: string) {
    path == BasePath.Text()
  }

  predicate IsEndpoint(path: string) {
    EndpointPrefix.Text() <= path
  }

  /** boost::split(path, is_any_of("/")): one piece more than there are slashes. */
  function Split(s: string): (parts: seq<string>)
    ensures |parts| > 0
  {
    if s == "" then [""]
    else
      var init := Split(s[..|s| - 1]);
      var c := s[|s| - 1];
      if c == '/' then init + [""]
      else init[..|init| - 1] + [init[|init| - 1] + [c]]
  }

  function Join(parts: seq<string>): string
    requires |parts| > 0
  {
    if |parts| == 1 then parts[0] else Join(parts[..|parts| - 1]) + "/" + parts[|parts| - 1]
  }

  /** find_last_of('/'), with -1 for npos. */
  function LastSlash(s: string): (loc: int)
    ensures -1 <= loc < |s|
    ensures loc >= 0 ==> s[loc] == '/'
    ensures forall i :: loc < i < |s| ==> s[i] != '/'
  {
    if s == "" then -1
    else if s[|s| - 1] == '/' then |s| - 1
    else LastSlash(s[..|s| - 1])
  }

  lemma JoinNewPiece(parts: seq<string>, piece: string)
    requires |parts| > 0
    ensures Join(parts + [piece]) == Join(parts) + "/" + piece
  {
    assert (parts + [piece])[..|parts|] == parts;
  }

  lemma JoinLongerPiece(front: seq<string>, last: string, c: char)
    ensures Join(front + [last + [c]]) == Join(front + [last]) + [c]
  {
    if front != [] {
      var head := Join(front) + "/";
      JoinNewPiece(front, last);
      JoinNewPiece(front, last + [c]);
      assert head + (last + [c]) == head + last + [c];
    }
  }

  lemma FrontAndLast<T>(s: seq<T>)
    requires s != []
    ensures s[..|s| - 1] + [s[|s| - 1]] == s
  {
  }

  /** Joining the pieces gives the path back. */
  lemma {:induction false} SplitJoin(s: string)
    ensures Join(Split(s)) == s
  {
    if s != "" {
      var init, c := s[..|s| - 1], s[|s| - 1];
      SplitJoin(init);
      assert s == init + [c];
      if c == '/' {
        JoinNewPiece(Split(init), "");
      } else {
        var parts := Split(init);
        FrontAndLast(parts);
        JoinLongerPiece(parts[..|parts| - 1], parts[|parts| - 1], c);
      }
    }
  }

  /** No piece carries a slash; with SplitJoin this says which pieces they are. */
  lemma {:induction false} PiecesHaveNoSlash(s: string, k: nat)
    requires k < |Split(s)|
    ensures '/' !in Split(s)[k]
  {
    if s != "" {
      var init := s[..|s| - 1];
      if k < |Split(init)| {
        PiecesHaveNoSlash(init, k);
      }
    }
  }

  function LastPiece(s: string): string {
    var parts := Split(s);
    parts[|parts| - 1]
  }

  lemma OneMoreChar(init: string, c: char)
    ensures LastSlash(init + [c]) == if c == '/' then |init| else LastSlash(init)
    ensures LastPiece(init + [c]) == if c == '/' then "" else LastPiece(init) + [c]
  {
    FrontOfAppend(init, c);
    assert LastSlash(init + [c]) == if c == '/' then |init| else LastSlash(init);
    hide LastSlash;
  }

  lemma FrontOfAppend(init: string, c: char)
    ensures (init + [c])[..|init + [c]| - 1] == init && (init + [c])[|init + [c]| - 1] == c
  {
  }

  /** The last piece is what follows the last slash, so the two parsers read the same text. */
  lemma {:induction false} LastPieceFollowsLastSlash(s: string)
    ensures LastPiece(s) == s[LastSlash(s) + 1..]
  {
    if s != "" {
      var init, c := s[..|s| - 1], s[|s| - 1];
      assert s == init + [c];
      OneMoreChar(init, c);
      LastPieceFollowsLastSlash(init);
    }
  }

  function ToEid(n: Result<int>): Result<byte> {
    match n
    case Ok(v) => Ok(v % 0x100)   // conversion of int to uint8_t
    case Err(e) => Err(e)
  }

  /** The scan's parser: last piece of the split path. */
  function ScanPathEid(path: string): Result<byte> {
    ToEid(Stoi(LastPiece(path), 10))
  }

  /** The event handlers refuse paths whose last slash is missing or among the first two characters. */
  predicate HasDeviceSlash(path: string) {
    LastSlash(path) >= 2
  }

  lemma DeviceSlashMeaning(path: string)
    ensures HasDeviceSlash(path) <==> exists i :: 2 <= i < |path| && path[i] == '/'
  {
  }

  /** The event handlers' parser: every failure is rethrown as std::runtime_error. */
  function EventPathEid(path: string): Result<byte> {
    if !HasDeviceSlash(path) then Err(RuntimeError)
    else match ToEid(Stoi(path[LastSlash(path) + 1..], 10))
      case Ok(eid) => Ok(eid)
      case Err(_) => Err(RuntimeError)
  }

  /**
   Scan and event parsing agree on every path: they accept the same paths with the same EID,
   except that only the scan also accepts a path without a usable slash.
   */
  lemma ParsersAgree(path: string)
    ensures EventPathEid(path)
      == if HasDeviceSlash(path) && ScanPathEid(path).Ok? then ScanPathEid(path) else Err(RuntimeError)
  {
    LastPieceFollowsLastSlash(path);
  }

  lemma {:induction false} NoSlash(s: string)
    requires '/' !in s
    ensures LastSlash(s) == -1
  {
    if s != "" {
      NoSlash(s[..|s| - 1]);
    }
  }

  lemma ByteParse(s: string, eid: byte)
    requires s == Decimal(eid)
    ensures ToEid(Stoi(s, 10)) == Ok(eid)
  {
    PrintParse(eid);
  }

  /** For every EID there is a path, its bare number, that the scan accepts and the event handlers refuse. */
  lemma ScanAcceptsMore(eid: byte)
    ensures ScanPathEid(Decimal(eid)) == Ok(eid) && EventPathEid(Decimal(eid)) == Err(RuntimeError)
  {
    var path := Decimal(eid);
    DecimalDigits(eid);
    NoSlash(path);
    LastPieceFollowsLastSlash(path);
    hide Decimal, Stoi, ToEid, LastSlash, LastPiece;
    assert path[0..] == path;
    ByteParse(LastPiece(path), eid);
    ParsersAgree(path);
  }

  /** The path under which getDeviceLocation looks a device up. */
  function LocationPath(device: DeviceID): string {
    DevicePrefix.Text() + Decimal(device.MctpEID())
  }

  lemma {:induction false} LastSlashOfAppend(s: string, t: string)
    requires '/' !in t
    ensures LastSlash(s + t) == LastSlash(s)
  {
    if t == "" {
      assert s + t == s;
    } else {
      var init := t[..|t| - 1];
      LastSlashOfAppend(s, init);
      assert (s + t)[..|s + t| - 1] == s + init;
      assert t[|t| - 1] in t;
    }
  }

  lemma NameAfterDirectory(dir: string, name: string)
    requires dir != "" && dir[|dir| - 1] == '/' && '/' !in name
    ensures LastSlash(dir + name) == |dir| - 1
    ensures (dir + name)[LastSlash(dir + name) + 1..] == name
  {
    LastSlashOfAppend(dir, name);
  }

  lemma OwnSpelling(n: nat)
    ensures Spells(Decimal(n), n, 10)
  {
  }

  /**
   The EID in a path: what stoi reads after the last slash, reduced to its low byte, whatever sign it has and
   whatever follows the digits.
   */
  lemma PathNumber(dir: string, sign: string, n: nat, tail: string)
    requires dir != "" && dir[|dir| - 1] == '/' && sign in {"", "+", "-"}
    requires '/' !in tail && (tail == "" || !BelongsTo(tail[0], 10))
    ensures ScanPathEid(dir + (sign + (Decimal(n) + tail))) ==
      match InIntRange(Signed(sign, n))
      case Ok(v) => Ok(v % 0x100)
      case Err(e) => Err(e)
  {
    var name := sign + (Decimal(n) + tail);
    NumberHasNoSlash(sign, n, tail);
    OwnSpelling(n);
    hide Decimal, Stoi, LastPiece, LastSlash, Spells, BelongsTo, InIntRange, Signed;
    NameAfterDirectory(dir, name);
    LastPieceFollowsLastSlash(dir + name);
    StoiMeaning("", sign, "", Decimal(n), n, tail, 10);
    assert "" + (sign + ("" + (Decimal(n) + tail))) == name;
  }

  lemma NumberHasNoSlash(sign: string, n: nat, tail: string)
    requires sign in {"", "+", "-"} && '/' !in tail
    ensures '/' !in sign + (Decimal(n) + tail)
  {
    DecimalDigits(n);
    hide Decimal;
  }

  lemma PathUnderDirectory(dir: string, eid: byte)
    requires |dir| > 2 && dir[|dir| - 1] == '/'
    ensures EventPathEid(dir + Decimal(eid)) == Ok(eid)
  {
    var name := Decimal(eid);
    DecimalDigits(eid);
    NameAfterDirectory(dir, name);
    ByteParse((dir + name)[LastSlash(dir + name) + 1..], eid);
  }

  lemma DevicePrefixShape()
    ensures |DevicePrefix.Text()| > 2 && DevicePrefix.Text()[|DevicePrefix.Text()| - 1] == '/'
    ensures IsEndpoint(DevicePrefix.Text())
  {
  }

  /** Parsing the printed path of a device gives back its EID, by either parser. */
  lemma LocationPathRoundTrip(device: DeviceID)
    ensures EventPathEid(LocationPath(device)) == Ok(device.MctpEID())
    ensures ScanPathEid(LocationPath(device)) == Ok(device.MctpEID())
    ensures IsEndpoint(LocationPath(device)) && DevicePrefix.Text() <= LocationPath(device)
  {
    DevicePrefixShape();
    PathUnderDirectory(DevicePrefix.Text(), device.MctpEID());
    ParsersAgree(LocationPath(device));
  }
}
