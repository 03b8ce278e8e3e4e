/**
 * The part of Python's `uuid.UUID(hex)` the worker relies on to turn a task
 * identifier string into a key, and `str(uuid)`, which produces the identifier
 * strings the API layer publishes. A UUID is its 32 hexadecimal digits; two
 * UUIDs are equal exactly when their 128-bit values are, that is, when their
 * digit sequences are.
 */
module Uuids {
  import opened Wrappers

  type HexDigit = d: int | 0 <= d < 16

  type Uuid = s: seq<HexDigit> | |s| == 32 witness seq(32, _ => 0)

  /** `s.replace(pattern, "")`: drops the non-overlapping occurrences, scanning left to right. */
  function RemoveAll(s: string, pattern: string): string
    requires pattern != ""
    decreases |s|
  {
    if |s| < |pattern| then s
    else if s[..|pattern|] == pattern then RemoveAll(s[|pattern|..], pattern)
    else [s[0]] + RemoveAll(s[1..], pattern)
  }

  function StripLeading(s: string, chars: set<char>): (r: string)
    ensures |r| <= |s|
    decreases |s|
  {
    if s != [] && s[0] in chars then StripLeading(s[1..], chars) else s
  }

  function StripTrailing(s: string, chars: set<char>): (r: string)
    ensures |r| <= |s|
    decreases |s|
  {
    if s != [] && s[|s| - 1] in chars then StripTrailing(s[..|s| - 1], chars) else s
  }

  /** `s.strip(chars)`: drops every leading and trailing character that is in `chars`. */
  function Strip(s: string, chars: set<char>): (r: string)
    ensures |r| <= |s|
  {
    StripTrailing(StripLeading(s, chars), chars)
  }

  /** The digit `int(c, 16)` reads from one character, either case. */
  function HexValue(c: char): Option<HexDigit> {
    if '0' <= c <= '9' then Some(c as int - '0' as int)
    else if 'a' <= c <= 'f' then Some(c as int - 'a' as int + 10)
    else if 'A' <= c <= 'F' then Some(c as int - 'A' as int + 10)
    else None
  }

  /** The lower-case digit `str(uuid)` writes. */
  function HexChar(d: HexDigit): char {
    if d < 10 then ('0' as int + d) as char else ('a' as int + d - 10) as char
  }

  predicate AllHex(h: string) {
    forall i :: 0 <= i < |h| ==> HexValue(h[i]).Some?
  }

  /** The characters `uuid.UUID` strips from either end. */
  const Braces: set<char> := {'{', '}'}

  /**
   * The characters `int()` skips at either end of its argument: the six ASCII
   * whitespace characters, and every non-ASCII character for which
   * `str.isspace()` holds. The ASCII separators U+001C to U+001F are not
   * skipped, although `str.isspace()` holds for them.
   */
  const Whitespace: set<char> := {
    '\t', '\n', '\U{B}', '\U{C}', '\r', ' ',
    '\U{85}', '\U{A0}', '\U{1680}',
    '\U{2000}', '\U{2001}', '\U{2002}', '\U{2003}', '\U{2004}', '\U{2005}',
    '\U{2006}', '\U{2007}', '\U{2008}', '\U{2009}', '\U{200A}',
    '\U{2028}', '\U{2029}', '\U{202F}', '\U{205F}', '\U{3000}'}

  /**
   * The digits of `d ("_"? d)*`, where `d` is a hexadecimal digit: `int(s, 16)`
   * lets a single underscore separate two digits, but not lead, trail or double.
   */
  function UnderscoredDigits(s: string): (ds: Option<seq<HexDigit>>)
    ensures ds.Some? ==> 0 < |ds.value| <= |s|
    decreases |s|
  {
    if s == [] || HexValue(s[0]).None? then None
    else if |s| == 1 then Some([HexValue(s[0]).value])
    else
      match UnderscoredDigits(if s[1] == '_' then s[2..] else s[1..])
      case None => None
      case Some(more) => Some([HexValue(s[0]).value] + more)
  }

  /** The `0x` or `0X` prefix `int(s, 16)` accepts before the digits. */
  predicate HasHexPrefix(s: string) {
    |s| >= 2 && s[0] == '0' && (s[1] == 'x' || s[1] == 'X')
  }

  /**
   * `int(s, 16)`, as the digit sequence of its value with leading zeros kept:
   * surrounding whitespace, then an optional `+` sign, then an optional `0x`
   * prefix that one underscore may follow, then the digits. A `-` sign cannot
   * occur in the strings `uuid.UUID` passes here, which have lost their hyphens.
   */
  function HexInt(s: string): (ds: Option<seq<HexDigit>>)
    ensures ds.Some? ==> |ds.value| <= |s|
  {
    var t := Strip(s, Whitespace);
    var unsigned := if t != [] && t[0] == '+' then t[1..] else t;
    var digits :=
      if !HasHexPrefix(unsigned) then unsigned
      else if |unsigned| > 2 && unsigned[2] == '_' then unsigned[3..]
      else unsigned[2..];
    UnderscoredDigits(digits)
  }

  /** The 32 digits of the 128-bit value that the digits `ds` denote. */
  function Widen(ds: seq<HexDigit>): (u: Uuid)
    requires |ds| <= 32
  {
    var zeros: seq<HexDigit> := seq(32 - |ds|, _ => 0);
    zeros + ds
  }

  /**
   * `uuid.UUID(s)`: removes the `urn:` and `uuid:` markers, strips surrounding
   * braces and removes every hyphen, demands that 32 characters remain, and
   * reads them with `int(_, 16)`, which is lenient about whitespace, a sign, a
   * prefix and underscores. `None` stands for the `ValueError` raised otherwise.
   * At most 32 digits always fit in 128 bits, so the range check never fails.
   */
  function ParseUuid(s: string): Option<Uuid> {
    var h := RemoveAll(Strip(RemoveAll(RemoveAll(s, "urn:"), "uuid:"), Braces), "-");
    if |h| != 32 then None
    else
      match HexInt(h)
      case None => None
      case Some(ds) => Some(Widen(ds))
  }

  function Hex(ds: seq<HexDigit>): (s: string)
    ensures |s| == |ds|
  {
    seq(|ds|, i requires 0 <= i < |ds| => HexChar(ds[i]))
  }

  /** `str(uuid)`: the canonical 8-4-4-4-12 lower-case form. */
  function Format(u: Uuid): string {
    Hex(u[..8]) + "-" + Hex(u[8..12]) + "-" + Hex(u[12..16]) + "-" + Hex(u[16..20]) + "-" + Hex(u[20..])
  }

  predicate LowerHexOrHyphen(c: char) {
    c == '-' || '0' <= c <= '9' || 'a' <= c <= 'f'
  }

  lemma {:induction false} RemoveAllAbsent(s: string, pattern: string)
    requires pattern != ""
    requires forall i :: 0 <= i < |s| ==> s[i] != pattern[0]
    ensures RemoveAll(s, pattern) == s
    decreases |s|
  {
    if |s| >= |pattern| {
      assert s[..|pattern|][0] == s[0];
      RemoveAllAbsent(s[1..], pattern);
    }
  }

  /** Removing a one-character pattern distributes over concatenation. */
  lemma {:induction false} RemoveAllAppend(a: string, b: string, c: char)
    ensures RemoveAll(a + b, [c]) == RemoveAll(a, [c]) + RemoveAll(b, [c])
    decreases |a|
  {
    if a != [] {
      assert (a + b)[..1] == a[..1];
      assert (a + b)[1..] == a[1..] + b;
      RemoveAllAppend(a[1..], b, c);
    } else {
      assert a + b == b;
    }
  }

  lemma HexCharValue(d: HexDigit)
    ensures HexValue(HexChar(d)) == Some(d)
    ensures '0' <= HexChar(d) <= '9' || 'a' <= HexChar(d) <= 'f'
    ensures HexChar(d) !in Whitespace
  {
  }

  lemma HexAppend(a: seq<HexDigit>, b: seq<HexDigit>)
    ensures Hex(a) + Hex(b) == Hex(a + b)
  {
  }

  /** Every character of `str(uuid)` is a lower-case digit or a hyphen. */
  lemma FormatAlphabet(u: Uuid)
    ensures |Format(u)| == 36
    ensures forall i :: 0 <= i < |Format(u)| ==> LowerHexOrHyphen(Format(u)[i])
    ensures Format(u)[0] == HexChar(u[0]) && Format(u)[35] == HexChar(u[31])
  {
  }

  lemma HexHasNoHyphen(ds: seq<HexDigit>)
    ensures RemoveAll(Hex(ds), "-") == Hex(ds)
  {
    forall i | 0 <= i < |ds|
      ensures Hex(ds)[i] != "-"[0]
    {
      HexCharValue(ds[i]);
    }
    RemoveAllAbsent(Hex(ds), "-");
  }

  /** Removing every `c` from `x + [c] + y`. */
  lemma RemoveAllJoin(x: string, y: string, c: char)
    ensures RemoveAll(x + [c] + y, [c]) == RemoveAll(x, [c]) + RemoveAll(y, [c])
  {
    assert x + [c] + y == (x + [c]) + y;
    RemoveAllAppend(x + [c], y, c);
    RemoveAllAppend(x, [c], c);
    assert RemoveAll([c], [c]) == [] by {
      assert [c][..1] == [c];
      assert [c][1..] == [];
    }
  }

  /** Appending a hyphen and a group of digits appends the digits once the hyphens are gone. */
  lemma RemoveHyphensJoinGroup(x: string, a: seq<HexDigit>, b: seq<HexDigit>)
    requires RemoveAll(x, "-") == Hex(a)
    ensures RemoveAll(x + "-" + Hex(b), "-") == Hex(a + b)
  {
    RemoveAllJoin(x, Hex(b), '-');
    HexHasNoHyphen(b);
    HexAppend(a, b);
  }

  /** The digits left once the hyphens are removed are those of the UUID. */
  lemma FormatWithoutHyphens(u: Uuid)
    ensures RemoveAll(Format(u), "-") == Hex(u)
  {
    var a, b, c, d, e := u[..8], u[8..12], u[12..16], u[16..20], u[20..];
    HexHasNoHyphen(a);
    var ab := Hex(a) + "-" + Hex(b);
    RemoveHyphensJoinGroup(Hex(a), a, b);
    var abc := ab + "-" + Hex(c);
    RemoveHyphensJoinGroup(ab, a + b, c);
    var abcd := abc + "-" + Hex(d);
    RemoveHyphensJoinGroup(abc, a + b + c, d);
    RemoveHyphensJoinGroup(abcd, a + b + c + d, e);
    assert a + b + c + d + e == u;
  }

  /** `int(_, 16)` reads the digits `str(uuid)` writes back as the same digits. */
  lemma {:induction false} UnderscoredDigitsOfHex(ds: seq<HexDigit>)
    requires ds != []
    ensures UnderscoredDigits(Hex(ds)) == Some(ds)
    decreases |ds|
  {
    HexCharValue(ds[0]);
    if |ds| > 1 {
      HexCharValue(ds[1]);
      assert Hex(ds)[1..] == Hex(ds[1..]);
      UnderscoredDigitsOfHex(ds[1..]);
      assert ds == [ds[0]] + ds[1..];
    } else {
      assert ds == [ds[0]];
    }
  }

  /** Stripping leaves a string alone whose first and last characters are not stripped. */
  lemma StripNothing(s: string, chars: set<char>)
    requires s != [] && s[0] !in chars && s[|s| - 1] !in chars
    ensures Strip(s, chars) == s
  {
  }

  /** Removing the markers, braces and hyphens leaves a string of digits, `x` and spaces alone. */
  lemma PlainPartsSurvive(s: string)
    requires s != [] && s[0] !in Braces && s[|s| - 1] !in Braces
    requires forall i :: 0 <= i < |s| ==> s[i] != 'u' && s[i] != '-'
    ensures RemoveAll(Strip(RemoveAll(RemoveAll(s, "urn:"), "uuid:"), Braces), "-") == s
  {
    assert "urn:"[0] == 'u' && "uuid:"[0] == 'u' && "-"[0] == '-';
    RemoveAllAbsent(s, "urn:");
    RemoveAllAbsent(s, "uuid:");
    StripNothing(s, Braces);
    RemoveAllAbsent(s, "-");
  }

  /** A 32-character identifier without markers, braces or hyphens goes to `int(_, 16)` as it is. */
  lemma ParsePlain(s: string)
    requires |s| == 32 && s[0] !in Braces && s[31] !in Braces
    requires forall i :: 0 <= i < |s| ==> s[i] != 'u' && s[i] != '-'
    ensures ParseUuid(s) == match HexInt(s) case None => None case Some(ds) => Some(Widen(ds))
  {
    PlainPartsSurvive(s);
  }

  /** The identifier `"0x"` followed by 30 digits is accepted, as `int()` allows the prefix. */
  lemma ParseAcceptsPrefix(ds: seq<HexDigit>)
    requires |ds| == 30
    ensures ParseUuid("0x" + Hex(ds)) == Some(Widen(ds))
    ensures Widen(ds) == [0, 0] + ds
  {
    var s := "0x" + Hex(ds);
    forall i | 0 <= i < |s|
      ensures s[i] != 'u' && s[i] != '-'
    {
      if i >= 2 {
        HexCharValue(ds[i - 2]);
      }
    }
    HexCharValue(ds[29]);
    ParsePlain(s);
    assert HexInt(s) == Some(ds) by {
      StripNothing(s, Whitespace);
      HexCharValue(ds[0]);
      assert s[2..] == Hex(ds);
      UnderscoredDigitsOfHex(ds);
    }
  }

  /** A space followed by 31 digits is accepted, as `int()` skips surrounding whitespace. */
  lemma ParseAcceptsLeadingSpace(ds: seq<HexDigit>)
    requires |ds| == 31
    ensures ParseUuid(" " + Hex(ds)) == Some(Widen(ds))
    ensures Widen(ds) == [0] + ds
  {
    var s := " " + Hex(ds);
    forall i | 0 <= i < |s|
      ensures s[i] != 'u' && s[i] != '-'
    {
      if i >= 1 {
        HexCharValue(ds[i - 1]);
      }
    }
    HexCharValue(ds[30]);
    ParsePlain(s);
    assert HexInt(s) == Some(ds) by {
      HexCharValue(ds[0]);
      assert StripLeading(s, Whitespace) == Hex(ds) by {
        assert s[1..] == Hex(ds);
      }
      StripNothing(Hex(ds), Whitespace);
      UnderscoredDigitsOfHex(ds);
    }
  }

  /** A file separator before 31 digits is not skipped by `int()`, so the identifier is refused. */
  lemma ParseRejectsFileSeparator(ds: seq<HexDigit>)
    requires |ds| == 31
    ensures ParseUuid("\U{1C}" + Hex(ds)) == None
  {
    var s := "\U{1C}" + Hex(ds);
    forall i | 0 <= i < |s|
      ensures s[i] != 'u' && s[i] != '-'
    {
      if i >= 1 {
        HexCharValue(ds[i - 1]);
      }
    }
    HexCharValue(ds[30]);
    ParsePlain(s);
    assert HexInt(s) == None by {
      StripNothing(s, Whitespace);
    }
  }

  /** Parsing what `str(uuid)` writes gives back the same UUID. */
  lemma ParseFormat(u: Uuid)
    ensures ParseUuid(Format(u)) == Some(u)
  {
    var s := Format(u);
    FormatAlphabet(u);
    RemoveAllAbsent(s, "urn:");
    RemoveAllAbsent(s, "uuid:");
    StripNothing(s, Braces);
    FormatWithoutHyphens(u);
    var h := Hex(u);
    HexCharValue(u[0]);
    HexCharValue(u[31]);
    StripNothing(h, Whitespace);
    UnderscoredDigitsOfHex(u);
    assert Widen(u) == u;
  }
}
