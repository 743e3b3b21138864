/** The firmware's string helpers: case conversion, trimming, splitting at
    a separator and formatting an `int` in base 2, 8, 10 or 16 with a
    minimum width. Characters are handled as in the C locale: only ASCII
    letters change case and the six ASCII blanks are white space. */
module StringUtils {
  import opened Bytes

  predicate IsLower(c: char)
  {
    'a' <= c <= 'z'
  }

  predicate IsUpper(c: char)
  {
    'A' <= c <= 'Z'
  }

  /** The C-locale white-space characters. */
  predicate IsSpace(c: char)
  {
    c == ' ' || c == '\t' || c == '\n' || c == '\r' || c == '\U{000B}' || c == '\U{000C}'
  }

  function ToUpper(c: char): (r: char)
    ensures !IsLower(c) ==> r == c
    ensures IsLower(c) ==> IsUpper(r) && r as int == c as int - 32
  {
    if IsLower(c) then (c as int - 32) as char else c
  }

  function ToLower(c: char): (r: char)
    ensures !IsUpper(c) ==> r == c
    ensures IsUpper(c) ==> IsLower(r) && r as int == c as int + 32
  {
    if IsUpper(c) then (c as int + 32) as char else c
  }

  /** `upper`: every lower-case letter replaced by its capital. */
  function Upper(s: string): (r: string)
    ensures |r| == |s|
    ensures forall i :: 0 <= i < |s| ==> r[i] == ToUpper(s[i])
  {
    seq(|s|, i requires 0 <= i < |s| => ToUpper(s[i]))
  }

  /** `lower`: every capital replaced by its lower-case letter. */
  function Lower(s: string): (r: string)
    ensures |r| == |s|
    ensures forall i :: 0 <= i < |s| ==> r[i] == ToLower(s[i])
  {
    seq(|s|, i requires 0 <= i < |s| => ToLower(s[i]))
  }

  /** Case conversion is idempotent, and converting back restores a
      string that had no letters of the other case. */
  lemma CaseLaws(s: string)
    ensures Upper(Upper(s)) == Upper(s) && Lower(Lower(s)) == Lower(s)
    ensures (forall i :: 0 <= i < |s| ==> !IsUpper(s[i])) ==> Lower(Upper(s)) == s
    ensures (forall i :: 0 <= i < |s| ==> !IsLower(s[i])) ==> Upper(Lower(s)) == s
  {
  }

  /** `upper` of a string from the tests. */
  lemma UpperExample()
    ensures Upper("aBcD123$ ") == "ABCD123$ "
    ensures Lower("aBcD123$ ") == "abcd123$ "
  {
  }

  /** The string without its leading white space. */
  function TrimLeft(s: string): (r: string)
    ensures |r| <= |s| && r == s[|s| - |r|..]
    ensures r == [] || !IsSpace(r[0])
    ensures forall i :: 0 <= i < |s| - |r| ==> IsSpace(s[i])
  {
    if s == [] || !IsSpace(s[0]) then s else TrimLeft(s[1..])
  }

  /** The string without its trailing white space. */
  function TrimRight(s: string): (r: string)
    ensures |r| <= |s| && r == s[..|r|]
    ensures r == [] || !IsSpace(r[|r| - 1])
    ensures forall i :: |r| <= i < |s| ==> IsSpace(s[i])
  {
    if s == [] || !IsSpace(s[|s| - 1]) then s else TrimRight(s[..|s| - 1])
  }

  /** `trim`: leading white space removed, then trailing white space. */
  function Trim(s: string): string
  {
    TrimRight(TrimLeft(s))
  }

  /** `r` is the run of `s` starting at `i`, and everything around it is
      white space. */
  predicate TrimmedAt(s: string, r: string, i: nat)
  {
    i + |r| <= |s| && r == s[i .. i + |r|]
    && (forall k :: 0 <= k < i ==> IsSpace(s[k]))
    && (forall k :: i + |r| <= k < |s| ==> IsSpace(s[k]))
  }

  /** `trim` returns a run of `s` that neither starts nor ends with white
      space, and everything it removes is white space. */
  lemma TrimShape(s: string)
    ensures exists i :: TrimmedAt(s, Trim(s), i)
    ensures Trim(s) == [] || (!IsSpace(Trim(s)[0]) && !IsSpace(Trim(s)[|Trim(s)| - 1]))
  {
    TrimRun(s);
    var l := TrimLeft(s);
    var r := TrimRight(l);
    assert r != [] ==> r[0] == l[0];
  }

  lemma TrimRun(s: string)
    ensures TrimmedAt(s, Trim(s), |s| - |TrimLeft(s)|)
  {
    TrimSlice(s);
    TrimTail(s);
  }

  lemma TrimSlice(s: string)
    ensures Trim(s) == s[|s| - |TrimLeft(s)| .. |s| - |TrimLeft(s)| + |Trim(s)|]
  {
    var l := TrimLeft(s);
    var r := TrimRight(l);
    var i := |s| - |l|;
    assert l == s[i..];
    assert r == l[..|r|];
    SliceOfSlice(s, i, |r|);
  }

  lemma SliceOfSlice(s: string, i: nat, n: nat)
    requires i + n <= |s|
    ensures s[i..][..n] == s[i .. i + n]
  {
  }

  lemma TrimTail(s: string)
    ensures forall k :: |s| - |TrimLeft(s)| + |Trim(s)| <= k < |s| ==> IsSpace(s[k])
  {
    var l := TrimLeft(s);
    var r := TrimRight(l);
    var i := |s| - |l|;
    forall k | i + |r| <= k < |s|
      ensures IsSpace(s[k])
    {
      assert s[k] == l[k - i];
    }
  }

  lemma TrimExamples()
    ensures Trim(" a\t") == "a"
    ensures Trim("\n ") == ""
  {
    TrimExampleWord();
    TrimExampleBlank();
  }

  lemma TrimExampleWord()
    ensures Trim(" a\t") == "a"
  {
    TrimLeftExample();
    TrimRightExample();
  }

  lemma TrimLeftExample()
    ensures TrimLeft(" a\t") == "a\t"
  {
    assert " a\t"[1..] == "a\t";
  }

  lemma TrimRightExample()
    ensures TrimRight("a\t") == "a"
  {
    assert "a\t"[..1] == "a";
    assert TrimRight("a\t") == TrimRight("a");
  }

  lemma TrimExampleBlank()
    ensures Trim("\n ") == ""
  {
    assert "\n "[1..] == " ";
    assert " "[1..] == "";
    assert TrimLeft("\n ") == "";
  }

  /** The pieces of `s` between separators, empty ones included, as
      successive `getline` calls see them (the last piece may be empty). */
  function Pieces(s: string, sep: char): (r: seq<string>)
    ensures |r| > 0
  {
    if s == [] then [[]]
    else
      var p := Pieces(s[..|s| - 1], sep);
      if s[|s| - 1] == sep then p + [[]]
      else p[..|p| - 1] + [p[|p| - 1] + [s[|s| - 1]]]
  }

  /** The pieces joined with the separator. */
  function Join(pieces: seq<string>, sep: char): string
    requires |pieces| > 0
  {
    if |pieces| == 1 then pieces[0] else Join(pieces[..|pieces| - 1], sep) + [sep] + pieces[|pieces| - 1]
  }

  /** No piece holds the separator, and joining the pieces gives the
      string back. */
  lemma {:induction false} PiecesJoin(s: string, sep: char)
    ensures Join(Pieces(s, sep), sep) == s
    ensures forall k :: 0 <= k < |Pieces(s, sep)| ==> sep !in Pieces(s, sep)[k]
  {
    if s != [] {
      var init := s[..|s| - 1];
      PiecesJoin(init, sep);
      var p := Pieces(init, sep);
      if s[|s| - 1] != sep {
        var q := p[..|p| - 1] + [p[|p| - 1] + [s[|s| - 1]]];
        if |p| > 1 {
          assert q[..|q| - 1] == p[..|p| - 1];
          JoinLast(p, sep);
          JoinLast(q, sep);
        }
        assert s == init + [s[|s| - 1]];
      } else {
        assert s == init + [sep];
      }
    }
  }

  lemma JoinLast(p: seq<string>, sep: char)
    requires |p| > 1
    ensures Join(p, sep) == Join(p[..|p| - 1], sep) + [sep] + p[|p| - 1]
  {
  }

  /** What `split` keeps of a list of pieces: the non-empty ones, trimmed
      when `trim` is set. */
  function Kept(pieces: seq<string>, trim: bool): (r: seq<string>)
    ensures |r| <= |pieces|
  {
    if pieces == [] then []
    else
      var last := pieces[|pieces| - 1];
      Kept(pieces[..|pieces| - 1], trim) + (if last == [] then [] else [if trim then Trim(last) else last])
  }

  lemma PiecesExample()
    ensures Pieces("a,,b", ',') == ["a", "", "b"]
    ensures Pieces(",", ',') == ["", ""]
  {
    PiecesWordExample();
    PiecesSnoc([], ',', ',');
    assert [] + [','] == ",";
  }

  lemma PiecesWordExample()
    ensures Pieces("a,,b", ',') == ["a", "", "b"]
  {
    PiecesTwoSeparators();
    PiecesSnoc("a,,", 'b', ',');
    assert "a,," + ['b'] == "a,,b";
    assert "" + ['b'] == "b";
    assert ["a", "", ""][..2] == ["a", ""];
  }

  lemma PiecesOneSeparator()
    ensures Pieces("a,", ',') == ["a", ""]
  {
    PiecesSnoc([], 'a', ',');
    assert [] + ['a'] == "a";
    PiecesSnoc("a", ',', ',');
    assert "a" + [','] == "a,";
  }

  lemma PiecesTwoSeparators()
    ensures Pieces("a,,", ',') == ["a", "", ""]
  {
    PiecesOneSeparator();
    PiecesSnoc("a,", ',', ',');
    assert "a," + [','] == "a,,";
  }

  /** `split` drops empty tokens: "," gives none (as the tests expect)
      and "a,,b" gives "a" and "b". */
  lemma SplitExample()
    ensures Kept(Pieces("a,,b", ','), false) == ["a", "b"]
    ensures Kept(Pieces(",", ','), false) == []
  {
    PiecesExample();
    assert Kept(["a"], false) == ["a"];
    assert Kept(["a", ""], false) == ["a"];
    assert Kept(["a", "", "b"], false) == ["a", "b"];
  }

  /** Without trimming, every token `split` returns is non-empty and holds
      no separator. */
  lemma {:induction false} KeptTokens(pieces: seq<string>, sep: char)
    requires forall k :: 0 <= k < |pieces| ==> sep !in pieces[k]
    ensures forall k :: 0 <= k < |Kept(pieces, false)| ==>
              Kept(pieces, false)[k] != [] && sep !in Kept(pieces, false)[k]
  {
    if pieces != [] {
      KeptTokens(pieces[..|pieces| - 1], sep);
    }
  }

  lemma PiecesSnoc(s: string, c: char, sep: char)
    ensures var p := Pieces(s, sep);
            Pieces(s + [c], sep) == if c == sep then p + [[]] else p[..|p| - 1] + [p[|p| - 1] + [c]]
  {
    assert (s + [c])[..|s|] == s;
  }

  lemma KeptSnoc(p: seq<string>, x: string, trim: bool)
    ensures Kept(p + [x], trim) == Kept(p, trim) + (if x == [] then [] else [if trim then Trim(x) else x])
  {
    assert (p + [x])[..|p|] == p;
  }

  /** `split`: reads `src` piece by piece up to each separator and keeps
      the non-empty pieces, trimmed when `trim` is set. */
  method Split(src: string, separator: char, trim: bool) returns (s: seq<string>)
    ensures s == Kept(Pieces(src, separator), trim)
  {
    s := [];
    var buf: string := [];
    var i := 0;
    ghost var done: seq<string> := [];
    while i < |src|
      invariant 0 <= i <= |src|
      invariant Pieces(src[..i], separator) == done + [buf]
      invariant s == Kept(done, trim)
    {
      if src[i] == separator {
        SplitAtSeparator(src, i, separator, done, buf);
        KeptSnoc(done, buf, trim);
        if buf != [] {
          s := s + [if trim then Trim(buf) else buf];
        }
        done := done + [buf];
        buf := [];
      } else {
        SplitAtChar(src, i, separator, done, buf);
        buf := buf + [src[i]];
      }
      i := i + 1;
    }
    assert src[..i] == src;
    KeptSnoc(done, buf, trim);
    if buf != [] {
      s := s + [if trim then Trim(buf) else buf];
    }
  }

  /** A separator closes the current piece and opens an empty one. */
  lemma SplitAtSeparator(src: string, i: nat, sep: char, done: seq<string>, buf: string)
    requires i < |src| && src[i] == sep && Pieces(src[..i], sep) == done + [buf]
    ensures Pieces(src[..i + 1], sep) == (done + [buf]) + [[]]
  {
    PiecesSnoc(src[..i], src[i], sep);
    assert src[..i + 1] == src[..i] + [src[i]];
  }

  /** Any other character extends the current piece. */
  lemma SplitAtChar(src: string, i: nat, sep: char, done: seq<string>, buf: string)
    requires i < |src| && src[i] != sep && Pieces(src[..i], sep) == done + [buf]
    ensures Pieces(src[..i + 1], sep) == done + [buf + [src[i]]]
  {
    PiecesSnoc(src[..i], src[i], sep);
    assert src[..i + 1] == src[..i] + [src[i]];
    assert (done + [buf])[..|done|] == done;
  }

  /** The digit for `d`: '0' to '9', then capitals from 'A'. */
  function DigitChar(d: nat): (r: char)
    requires d < 16
    ensures DigitValue(r) == d
  {
    if d < 10 then ('0' as int + d) as char else ('A' as int + d - 10) as char
  }

  /** The digits of `n` in `base`, most significant first, without leading
      zeros ("0" for zero); letters are capitals. */
  function Digits(n: nat, base: nat): (r: string)
    requires 2 <= base <= 16
    ensures |r| > 0
  {
    if n < base then [DigitChar(n)] else Digits(n / base, base) + [DigitChar(n % base)]
  }

  function DigitValue(c: char): nat
  {
    if '0' <= c <= '9' then c as int - '0' as int
    else if 'A' <= c <= 'F' then c as int - 'A' as int + 10
    else 0
  }

  /** The number a string of digits stands for. */
  function Value(s: string, base: nat): nat
  {
    if s == [] then 0 else Value(s[..|s| - 1], base) * base + DigitValue(s[|s| - 1])
  }

  lemma ValueSnoc(s: string, c: char, base: nat)
    ensures Value(s + [c], base) == Value(s, base) * base + DigitValue(c)
  {
    assert (s + [c])[..|s|] == s;
  }

  lemma DivMod(n: nat, base: nat)
    requires base > 0
    ensures n == n / base * base + n % base
  {
  }

  lemma DigitsValueStep(n: nat, base: nat)
    requires 2 <= base <= 16 && n >= base
    requires Value(Digits(n / base, base), base) == n / base
    ensures Value(Digits(n, base), base) == n
  {
    var q, r := n / base, n % base;
    ValueSnoc(Digits(q, base), DigitChar(r), base);
    DivMod(n, base);
  }

  /** Reading the digits back gives the number. */
  lemma {:induction false} DigitsValue(n: nat, base: nat)
    requires 2 <= base <= 16
    ensures Value(Digits(n, base), base) == n
  {
    if n >= base {
      DivSmaller(n, base);
      DigitsValue(n / base, base);
      DigitsValueStep(n, base);
    } else {
      DigitsValueSingle(n, base);
    }
  }

  lemma DivSmaller(n: nat, base: nat)
    requires 2 <= base <= n
    ensures 0 < n / base < n
  {
  }

  lemma DigitsValueSingle(n: nat, base: nat)
    requires 2 <= base <= 16 && n < base
    ensures Value(Digits(n, base), base) == n
  {
    ValueSnoc([], DigitChar(n), base);
    assert [] + [DigitChar(n)] == Digits(n, base);
  }

  /** Only zero is written with a leading zero. */
  lemma {:induction false} DigitsNoLeadingZero(n: nat, base: nat)
    requires 2 <= base <= 16 && n > 0
    ensures Digits(n, base)[0] != '0'
  {
    if n >= base {
      DivSmaller(n, base);
      DigitsNoLeadingZero(n / base, base);
      assert Digits(n, base)[0] == Digits(n / base, base)[0];
    } else {
      assert DigitValue(Digits(n, base)[0]) == n;
    }
  }

  /** `s` right-aligned in a field of `width` characters filled with
      `fill`, as `setw` does; never truncated. */
  function Pad(s: string, width: nat, fill: char): (r: string)
    ensures |r| == if |s| < width then width else |s|
    ensures r[|r| - |s|..] == s
    ensures forall i :: 0 <= i < |r| - |s| ==> r[i] == fill
  {
    if |s| < width then seq(width - |s|, i => fill) + s else s
  }

  /** The two's-complement value of a 32-bit `int` read as unsigned. */
  function Unsigned(src: int): nat
  {
    src % 0x1_0000_0000
  }

  /** The decimal form of an `int`, with its minus sign. */
  function Decimal(src: int): string
  {
    if src < 0 then "-" + Digits(-src, 10) else Digits(src, 10)
  }

  /** What `fromInt` prints: hexadecimal and octal of the unsigned value,
      binary of the unsigned value without leading zeros, decimal, each
      padded to `digits` with `fill`; an unsupported base prints plain
      decimal. */
  function Formatted(src: int, base: nat, digits: nat, fill: char): string
  {
    if base == 16 then Pad(Digits(Unsigned(src), 16), digits, fill)
    else if base == 8 then Pad(Digits(Unsigned(src), 8), digits, fill)
    else if base == 2 then Pad(Digits(Unsigned(src), 2), digits, fill)
    else if base == 10 then Pad(Decimal(src), digits, fill)
    else Decimal(src)
  }

  /** The 32 characters of `std::bitset<32>::to_string` for the low `n`
      bits of `u`, most significant first. */
  function Bits(u: nat, n: nat): (r: string)
    ensures |r| == n
  {
    if n == 0 then [] else Bits(u / 2, n - 1) + [if u % 2 == 1 then '1' else '0']
  }

  /** The string from its first character that is not '0' on, as
      `find_first_not_of("0")` and `substr` give it; empty when there is
      none. */
  function StripZeros(s: string): (r: string)
  {
    if s == [] then [] else if s[0] == '0' then StripZeros(s[1..]) else s
  }

  lemma {:induction false} StripZerosAppend(s: string, c: char)
    ensures StripZeros(s + [c]) == if StripZeros(s) == [] then (if c == '0' then [] else [c]) else StripZeros(s) + [c]
  {
    if s != [] {
      assert (s + [c])[1..] == s[1..] + [c];
      StripZerosAppend(s[1..], c);
    } else {
      assert [c][1..] == [];
    }
  }

  /** Stripping the leading zeros of the bit string of `u` leaves its
      binary digits, or nothing for zero. */
  lemma {:induction false} StripBits(u: nat, n: nat)
    requires u < Pow2(n)
    ensures StripZeros(Bits(u, n)) == if u == 0 then [] else Digits(u, 2)
  {
    if n > 0 {
      StripBits(u / 2, n - 1);
      StripZerosAppend(Bits(u / 2, n - 1), if u % 2 == 1 then '1' else '0');
    }
  }

  /** The padding loop of `fromInt` in base 2: `fill` put in front until
      the string is `digits` long. */
  method PadLeft(s: string, digits: nat, fill: char) returns (r: string)
    ensures r == Pad(s, digits, fill)
  {
    r := s;
    var i := |s|;
    while i < digits
      invariant |s| <= i && (i <= digits || i == |s|)
      invariant r == seq(i - |s|, k => fill) + s
    {
      r := [fill] + r;
      i := i + 1;
    }
  }

  /** `fromInt`: the number in `base` (2, 8, 10 or 16) right-aligned in
      `digits` characters of `fill`; any other base prints decimal. */
  method FromInt(src: int, base: nat, digits: nat, fill: char) returns (r: string)
    requires -0x8000_0000 <= src < 0x8000_0000
    ensures r == Formatted(src, base, digits, fill)
  {
    if base == 16 {
      r := Pad(Digits(Unsigned(src), 16), digits, fill);
    } else if base == 8 {
      r := Pad(Digits(Unsigned(src), 8), digits, fill);
    } else if base == 2 {
      var tmp := Bits(Unsigned(src), 32);
      var stripped := StripZeros(tmp);
      Pow2Values();
      StripBits(Unsigned(src), 32);
      if stripped != [] {
        tmp := stripped;
      } else {
        tmp := "0";
      }
      assert tmp == Digits(Unsigned(src), 2);
      r := PadLeft(tmp, digits, fill);
    } else if base == 10 {
      r := Pad(Decimal(src), digits, fill);
    } else {
      r := Decimal(src);
    }
  }

  /** The formats of the tests. */
  lemma FormattedExamples()
    ensures Formatted(2748, 16, 4, ' ') == " ABC"
    ensures Formatted(-21, 10, 4, '0') == "0-21"
    ensures Formatted(10, 2, 8, '0') == "00001010"
    ensures Formatted(0, 2, 4, ' ') == "   0"
    ensures Formatted(10, 1, 0, ' ') == "10"
  {
    HexExample();
    DecimalExample();
    BinaryExample();
    ZeroExample();
    PlainExample();
  }

  lemma PlainExample()
    ensures Formatted(10, 1, 0, ' ') == "10"
  {
    assert Digits(10, 10) == [DigitChar(1), DigitChar(0)] == "10";
    assert Decimal(10) == Digits(10, 10);
    assert Formatted(10, 1, 0, ' ') == Decimal(10);
  }

  lemma HexExample()
    ensures Formatted(2748, 16, 4, ' ') == " ABC"
  {
    var d := Digits(2748, 16);
    assert d == Digits(171, 16) + [DigitChar(12)];
    assert Digits(171, 16) == [DigitChar(10), DigitChar(11)];
    assert d == "ABC";
    var r := Pad(d, 4, ' ');
    assert r == [r[0]] + r[1..];
    assert Unsigned(2748) == 2748;
    assert Formatted(2748, 16, 4, ' ') == r;
  }

  lemma DecimalExample()
    ensures Formatted(-21, 10, 4, '0') == "0-21"
  {
    assert Digits(21, 10) == [DigitChar(2), DigitChar(1)] == "21";
    var d := Decimal(-21);
    assert d == "-21";
    var r := Pad(d, 4, '0');
    assert r == [r[0]] + r[1..];
  }

  lemma BinaryExample()
    ensures Formatted(10, 2, 8, '0') == "00001010"
  {
    var d := Digits(10, 2);
    assert d == Digits(5, 2) + [DigitChar(0)];
    assert Digits(5, 2) == Digits(2, 2) + [DigitChar(1)];
    assert Digits(2, 2) == [DigitChar(1), DigitChar(0)];
    assert d == "1010";
    var r := Pad(d, 8, '0');
    assert r == [r[0], r[1], r[2], r[3]] + r[4..];
    assert Unsigned(10) == 10;
    assert Formatted(10, 2, 8, '0') == r;
  }

  lemma ZeroExample()
    ensures Formatted(0, 2, 4, ' ') == "   0"
  {
    var d := Digits(0, 2);
    assert d == [DigitChar(0)] == "0";
    var r := Pad(d, 4, ' ');
    assert r == [r[0], r[1], r[2]] + r[3..];
    assert Unsigned(0) == 0;
    assert Formatted(0, 2, 4, ' ') == r;
  }

  /** Binary output has no leading zero except for zero itself, and reads
      back as the unsigned value of the number. */
  lemma BinaryDigits(src: int)
    requires -0x8000_0000 <= src < 0x8000_0000
    ensures Value(Digits(Unsigned(src), 2), 2) == Unsigned(src)
    ensures Unsigned(src) != 0 ==> Digits(Unsigned(src), 2)[0] == '1'
  {
    DigitsValue(Unsigned(src), 2);
    if Unsigned(src) != 0 {
      DigitsNoLeadingZero(Unsigned(src), 2);
      DigitsBinaryChars(Unsigned(src));
    }
  }

  lemma {:induction false} DigitsBinaryChars(n: nat)
    ensures forall i :: 0 <= i < |Digits(n, 2)| ==> Digits(n, 2)[i] in "01"
  {
    if n >= 2 {
      DigitsBinaryChars(n / 2);
    }
  }

  /** An unsupported base is printed as plain decimal. */
  lemma UnsupportedBase(src: int, base: nat, digits: nat, fill: char)
    requires base !in {2, 8, 10, 16}
    ensures Formatted(src, base, digits, fill) == Decimal(src)
  {
  }
}
