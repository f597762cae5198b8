/** The pure helpers of the msp430-info script: the one-line description
    of a memory region, yes/no rendering of flag words, trimming the class
    name off an enumerator's text, and splitting the library's version
    number into its parts. */
module Info {
  import opened Util

  // ---------------------------------------------------------------------
  // displayMemoryInfo

  /** The text after the region name: a placeholder when both bounds are
      zero, else both bounds in four-digit hex and the inclusive size. */
  function RangeDescription(start: int, stop: int): string
  {
    if start == 0 && stop == 0 then "[Not implemented]"
    else Bounds(start, stop) + SizeText(Decimal(stop - start + 1))
  }

  /** Both bounds in hex, zero-filled to four digits. */
  function Bounds(start: int, stop: int): string
  {
    "from 0x" + HexFormat(start, 4) + " to 0x" + HexFormat(stop, 4)
  }

  /** The size part: the numeral right-justified to six, in parentheses. */
  function SizeText(d: string): string
  {
    " (" + RightJustify(d, 6) + " bytes)"
  }

  /** displayMemoryInfo(name, start, stop): the name in a column ten wide,
      then ": " and the range description. */
  function DisplayMemoryInfo(name: string, start: int, stop: int): (r: string)
    ensures var w := if |name| < 10 then 10 else |name|;
      |r| >= w + 2 && r[..|name|] == name &&
      (forall i :: |name| <= i < w ==> r[i] == ' ') &&
      r[w..w + 2] == ": "
  {
    var column := LeftJustify(name, 10);
    assert (column + ": " + RangeDescription(start, stop))[..|column|] == column;
    column + ": " + RangeDescription(start, stop)
  }

  /** Reads back the size a description line reports: the number between
      the last '(' and the closing " bytes)", blanks before it skipped. */
  function ReportedBytes(line: string): Option<int>
  {
    if !EndsWith(line, " bytes)") then None
    else NumberInParentheses(line[..|line| - 7])
  }

  /** The number after the last '(' of `body`, blanks before it skipped. */
  function NumberInParentheses(body: string): Option<int>
  {
    match LastIndexOf(body, '(')
    case None => None
    case Some(p) => DecimalValue(StripBlanks(body[p + 1..]))
  }

  /** "[Not implemented]" ends the line exactly when both bounds are zero. */
  lemma NotImplementedExactly(name: string, start: int, stop: int)
    ensures EndsWith(DisplayMemoryInfo(name, start, stop), "[Not implemented]")
      <==> start == 0 && stop == 0
  {
    var line := DisplayMemoryInfo(name, start, stop);
    var head := LeftJustify(name, 10) + ": ";
    if !(start == 0 && stop == 0) {
      var tail := RangeDescription(start, stop);
      assert line == head + tail;
      assert tail[|tail| - 1] == ')';
      assert line[|line| - 1] == ')';
    }
  }

  /** The size read back from the line is stop - start + 1, and a region
      with both bounds zero reports none. */
  lemma ReportedSize(name: string, start: int, stop: int)
    ensures ReportedBytes(DisplayMemoryInfo(name, start, stop))
      == if start == 0 && stop == 0 then None else Some(stop - start + 1)
  {
    var head := LeftJustify(name, 10) + ": ";
    assert DisplayMemoryInfo(name, start, stop) == head + RangeDescription(start, stop);
    RangeReported(head, start, stop);
  }

  /** ReportedSize for any text in front of the range description. */
  lemma RangeReported(head: string, start: int, stop: int)
    ensures ReportedBytes(head + RangeDescription(start, stop))
      == if start == 0 && stop == 0 then None else Some(stop - start + 1)
  {
    if start == 0 && stop == 0 {
      NotImplementedReportsNothing(head);
    } else {
      BoundsReported(head, start, stop);
    }
  }

  lemma BoundsReported(head: string, start: int, stop: int)
    requires start != 0 || stop != 0
    ensures ReportedBytes(head + RangeDescription(start, stop)) == Some(stop - start + 1)
  {
    RangeText(head, start, stop);
    SizeReported(head + Bounds(start, stop), stop - start + 1);
  }

  lemma RangeText(head: string, start: int, stop: int)
    requires start != 0 || stop != 0
    ensures head + RangeDescription(start, stop)
      == head + Bounds(start, stop) + SizeText(Decimal(stop - start + 1))
  {
    Associative(head, Bounds(start, stop), SizeText(Decimal(stop - start + 1)));
  }

  lemma SizeReported(pre: string, n: int)
    ensures ReportedBytes(pre + SizeText(Decimal(n))) == Some(n)
  {
    DecimalChars(n);
    ReportedBytesOf(pre, Decimal(n));
    DecimalRoundTrip(n);
  }

  lemma NotImplementedReportsNothing(head: string)
    ensures ReportedBytes(head + "[Not implemented]") == None
  {
    var line := head + "[Not implemented]";
    assert line[|line| - 1] == ']';
    assert " bytes)"[6] == ')';
  }

  lemma Associative(a: string, b: string, c: string)
    ensures a + (b + c) == a + b + c
  {
  }

  /** Whatever precedes it, a justified numeral before " bytes)" is read
      back as written. */
  lemma ReportedBytesOf(pre: string, d: string)
    requires forall c <- d :: c == '-' || '0' <= c <= '9'
    requires d != []
    ensures ReportedBytes(pre + SizeText(d)) == DecimalValue(d)
  {
    var j := RightJustify(d, 6);
    var body := pre + " " + "(" + j;
    var line := pre + SizeText(d);
    assert line == body + " bytes)";
    BytesSuffix(body);
    NoParenInJustified(d);
    LastParen(pre + " ", j);
    JustifiedStrip(d);
  }

  lemma BytesSuffix(body: string)
    ensures ReportedBytes(body + " bytes)") == NumberInParentheses(body)
  {
    var line := body + " bytes)";
    assert line[|line| - 7..] == " bytes)";
    assert line[..|line| - 7] == body;
  }

  lemma NoParenInJustified(d: string)
    requires forall c <- d :: c == '-' || '0' <= c <= '9'
    ensures '(' !in RightJustify(d, 6)
  {
    var j := RightJustify(d, 6);
    forall i | 0 <= i < |j| ensures j[i] != '(' {
      if i >= |j| - |d| {
        assert j[i] == j[|j| - |d|..][i - (|j| - |d|)];
        assert d[i - (|j| - |d|)] in d;
      }
    }
  }

  /** The last '(' of `pre + "(" + j` is the one before `j` when `j` has none. */
  lemma LastParen(pre: string, j: string)
    requires '(' !in j
    ensures var body := pre + "(" + j;
      LastIndexOf(body, '(') == Some(|pre|) && body[|pre| + 1..] == j
  {
    var body := pre + "(" + j;
    assert body[|pre|] == '(';
    forall i | |pre| < i < |body| ensures body[i] != '(' {
      assert body[i] == j[i - |pre| - 1];
    }
  }

  /** Stripping the justification blanks gives the numeral back. */
  lemma JustifiedStrip(d: string)
    requires forall c <- d :: c == '-' || '0' <= c <= '9'
    requires d != []
    ensures StripBlanks(RightJustify(d, 6)) == d
  {
    var j := RightJustify(d, 6);
    var r := StripBlanks(j);
    var k := |j| - |d|;
    assert j[k..] == d;
    assert j[k] == d[0];
    assert d[0] in d;
    assert |r| == |d|;
  }

  // ---------------------------------------------------------------------
  // yesNo

  /** yesNo(value): "yes" for 1, "no" for 0, "<unknown>" for anything else. */
  function YesNo(value: int): (r: string)
    ensures r == "yes" <==> value == 1
    ensures r == "no" <==> value == 0
    ensures r == "<unknown>" <==> value != 0 && value != 1
  {
    if value == 1 then "yes"
    else if value == 0 then "no"
    else "<unknown>"
  }

  // ---------------------------------------------------------------------
  // beautifyEnumerator

  /** Where the current line of `s` ends: the first newline, or the end. */
  function LineEnd(s: string): (e: nat)
    ensures e <= |s|
    ensures forall i :: 0 <= i < e ==> s[i] != '\n'
    ensures e < |s| ==> s[e] == '\n'
  {
    match IndexOf(s, '\n')
    case Some(k) => k
    case None => |s|
  }

  /** beautifyEnumerator: re.sub(r"([^.]*\.)(.*)", r"\2", text). Each match
      runs from the scan position over non-dots (newlines included) to a
      dot, then on to the end of that line; it is replaced by what follows
      the dot on that line, and scanning resumes at the line's end. Text
      after the last dot is kept as it is. */
  function BeautifyEnumerator(s: string): (r: string)
    ensures |r| <= |s|
    ensures '.' in s ==> |r| < |s|
    decreases |s|
  {
    match IndexOf(s, '.')
    case None => s
    case Some(q) =>
      var rest := s[q + 1..];
      var e := LineEnd(rest);
      rest[..e] + BeautifyEnumerator(rest[e..])
  }

  /** A text is left unchanged exactly when it has no dot. */
  lemma BeautifyUnchanged(s: string)
    ensures BeautifyEnumerator(s) == s <==> '.' !in s
  {
  }

  /** On one line, everything up to and including the first dot goes and
      the rest, later dots included, stays. */
  lemma BeautifyOneLine(s: string, q: nat)
    requires q < |s| && s[q] == '.'
    requires '.' !in s[..q]
    requires '\n' !in s
    ensures BeautifyEnumerator(s) == s[q + 1..]
  {
    var rest := s[q + 1..];
    forall i | 0 <= i < q ensures s[i] != '.' {
      assert s[..q][i] == s[i];
    }
    assert IndexOf(s, '.') == Some(q);
    assert IndexOf(rest, '\n').None?;
    assert rest[LineEnd(rest)..] == [];
    assert rest[..LineEnd(rest)] == rest;
  }

  /** str() of an enumeration member is "Class.MEMBER"; the class name and
      the dot are dropped. */
  lemma BeautifyMember(cls: string, member: string)
    requires '.' !in cls
    requires '\n' !in cls && '\n' !in member
    ensures BeautifyEnumerator(cls + "." + member) == member
  {
    var s := cls + "." + member;
    assert s[|cls|] == '.';
    assert s[..|cls|] == cls;
    BeautifyOneLine(s, |cls|);
    assert s[|cls| + 1..] == member;
  }

  // ---------------------------------------------------------------------
  // The library's version number

  /** VersionInfo::get in the library: the decimal fields a.bb.cc.ddd of
      one number. */
  function EncodeVersion(major: nat, minor: nat, patch: nat, flavor: nat): nat
  {
    major * 10000000 + minor * 100000 + patch * 1000 + flavor
  }

  datatype Version = Version(major: int, minor: int, patch: int)

  /** The three divisions displayInfo applies to the number initialize
      returns. Python 2 divides integers with floor, which for a positive
      divisor is Dafny's division too. */
  function DecodeAsWritten(ver: int): Version
  {
    Version(ver / 10000000, ver / 100000, ver / 1000)
  }

  datatype VersionParts = VersionParts(major: int, minor: int, patch: int, flavor: int)

  /** Each field taken out by dividing down to it and keeping its own
      decimal digits only, as the a.bb.cc.ddd formula of
      msp430dll/msp430-info.py:94-98 lays the number out
      (20030000004 would give 2003, 0, 0, 4). */
  function DecodeVersion(ver: int): (v: VersionParts)
    ensures 0 <= v.minor < 100 && 0 <= v.patch < 100 && 0 <= v.flavor < 1000
  {
    VersionParts(ver / 10000000, ver / 100000 % 100, ver / 1000 % 100, ver % 1000)
  }

  /** Decoding an encoded version gives its fields back, provided each
      fits its digits. */
  lemma DecodeEncodeVersion(major: nat, minor: nat, patch: nat, flavor: nat)
    requires minor < 100 && patch < 100 && flavor < 1000
    ensures DecodeVersion(EncodeVersion(major, minor, patch, flavor))
      == VersionParts(major, minor, patch, flavor)
  {
    var ver := EncodeVersion(major, minor, patch, flavor);
    var low := major * 10000 + minor * 100 + patch;
    assert ver == low * 1000 + flavor;
    assert ver / 1000 == low;
    assert ver % 1000 == flavor;
    assert low == (major * 100 + minor) * 100 + patch;
    assert ver / 100000 == major * 100 + minor;
    assert ver / 10000000 == major;
  }

  /** Every non-negative version number is the encoding of its decoding. */
  lemma EncodeDecodeVersion(ver: nat)
    ensures var v := DecodeVersion(ver);
      v.major >= 0 && EncodeVersion(v.major, v.minor, v.patch, v.flavor) == ver
  {
    var a, f := ver / 1000, ver % 1000;
    var b, p := a / 100, a % 100;
    var c, m := b / 100, b % 100;
    assert ver == a * 1000 + f && a == b * 100 + p && b == c * 100 + m;
    assert ver == b * 100000 + p * 1000 + f;
    assert ver / 100000 == b;
    assert ver == c * 10000000 + m * 100000 + p * 1000 + f;
    assert ver / 10000000 == c;
  }

  /** As written, the major part is right, but minor keeps the major
      digits in front of it and patch keeps both. */
  lemma DecodeAsWrittenParts(major: nat, minor: nat, patch: nat, flavor: nat)
    requires minor < 100 && patch < 100 && flavor < 1000
    ensures DecodeAsWritten(EncodeVersion(major, minor, patch, flavor))
      == Version(major, major * 100 + minor, (major * 100 + minor) * 100 + patch)
  {
    DecodeEncodeVersion(major, minor, patch, flavor);
  }

  /** Version 3.4.5 flavour 6 is read as 3.304.30405. */
  lemma DecodeAsWrittenMisreads()
    ensures DecodeAsWritten(EncodeVersion(3, 4, 5, 6)) == Version(3, 304, 30405)
    ensures DecodeVersion(EncodeVersion(3, 4, 5, 6)) == VersionParts(3, 4, 5, 6)
  {
  }
}
