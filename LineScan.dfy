/** The line scanner of pollVars (exporter.go:99-104): one line of
    `lifepo4wered-cli get` output read with the format "%s = %d".

    The scanner follows fmt's rules for this one format: %s skips leading
    blanks and takes the longest run of non-blank characters; each space of
    the format needs one or more blanks in the input; '=' must match itself;
    %d skips blanks, takes an optional sign and the longest run of decimal
    digits, whose value must fit in Go's int (taken here to be 64 bits);
    whatever follows the digits is ignored. Lines never hold a newline (the
    line splitter removed it), so fmt's newline rules do not arise.

    A line that scans is described by a `Layout`: the pieces the format
    matches, in order. `ParseLineMeaning` proves that a line scans to a sample
    exactly when it is the join of a well-formed layout of that sample. */
module LineScan {

  datatype Option<T> = None | Some(value: T)

  /** One `name = integer` line of the producer's output. */
  datatype Sample = Sample(name: string, value: int)

  /** The characters fmt's scanner treats as blanks. */
  predicate IsSpace(c: char): (b: bool)
    ensures b ==> c != '=' && c != '+' && c != '-' && !IsDigit(c)
  {
    || ('\t' <= c <= '\r') || c == ' ' || c == '\U{85}' || c == '\U{A0}' || c == '\U{1680}'
    || ('\U{2000}' <= c <= '\U{200A}') || c == '\U{2028}' || c == '\U{2029}'
    || c == '\U{202F}' || c == '\U{205F}' || c == '\U{3000}'
  }

  predicate IsDigit(c: char)
  {
    '0' <= c <= '9'
  }

  /** A name as %s can yield it: non-empty and blank-free. */
  predicate IsToken(name: string)
  {
    name != [] && forall k :: 0 <= k < |name| ==> !IsSpace(name[k])
  }

  predicate AllBlanks(s: string)
  {
    forall k :: 0 <= k < |s| ==> IsSpace(s[k])
  }

  predicate AllDigits(s: string)
  {
    forall k :: 0 <= k < |s| ==> IsDigit(s[k])
  }

  /** The range of Go's int, taken to be 64 bits wide. */
  const MinInt: int := -0x8000_0000_0000_0000
  const MaxInt: int := 0x7FFF_FFFF_FFFF_FFFF

  /** First position at or after `i` that is not a blank. */
  function SkipSpaces(s: string, i: nat): (j: nat)
    requires i <= |s|
    ensures i <= j <= |s|
    ensures j < |s| ==> !IsSpace(s[j])
    decreases |s| - i
  {
    if i < |s| && IsSpace(s[i]) then SkipSpaces(s, i + 1) else i
  }

  /** End of the run of non-blank characters that starts at `i`. */
  function TokenEnd(s: string, i: nat): (j: nat)
    requires i <= |s|
    ensures i <= j <= |s|
    ensures j < |s| ==> IsSpace(s[j])
    decreases |s| - i
  {
    if i < |s| && !IsSpace(s[i]) then TokenEnd(s, i + 1) else i
  }

  /** End of the run of decimal digits that starts at `i`. */
  function NumberEnd(s: string, i: nat): (j: nat)
    requires i <= |s|
    ensures i <= j <= |s|
    ensures j < |s| ==> !IsDigit(s[j])
    decreases |s| - i
  {
    if i < |s| && IsDigit(s[i]) then NumberEnd(s, i + 1) else i
  }

  /** Every character SkipSpaces passes over is a blank. */
  lemma {:induction false} SkippedAreBlanks(s: string, i: nat)
    requires i <= |s|
    ensures forall k :: i <= k < SkipSpaces(s, i) ==> IsSpace(s[k])
    decreases |s| - i
  {
    if i < |s| && IsSpace(s[i]) {
      SkippedAreBlanks(s, i + 1);
    }
  }

  /** Every character of the token TokenEnd delimits is a non-blank. */
  lemma {:induction false} TokenHasNoBlanks(s: string, i: nat)
    requires i <= |s|
    ensures forall k :: i <= k < TokenEnd(s, i) ==> !IsSpace(s[k])
    decreases |s| - i
  {
    if i < |s| && !IsSpace(s[i]) {
      TokenHasNoBlanks(s, i + 1);
    }
  }

  /** Every character of the run NumberEnd delimits is a digit. */
  lemma {:induction false} NumberHasOnlyDigits(s: string, i: nat)
    requires i <= |s|
    ensures AllDigits(s[i..NumberEnd(s, i)])
    decreases |s| - i
  {
    if i < |s| && IsDigit(s[i]) {
      NumberHasOnlyDigits(s, i + 1);
      var j := NumberEnd(s, i);
      forall k | 0 <= k < j - i ensures IsDigit(s[i..j][k]) {
        if k > 0 {
          assert s[i..j][k] == s[i + 1..j][k - 1];
        }
      }
    }
  }

  function DigitValue(c: char): (d: nat)
    requires IsDigit(c)
  {
    (c - '0') as nat
  }

  function DigitChar(d: nat): (c: char)
    requires d < 10
  {
    ('0' as int + d) as char
  }

  /** Value of a string of decimal digits, most significant first. */
  function DecimalValue(s: string): (n: nat)
    requires AllDigits(s)
  {
    if s == [] then 0 else DecimalValue(s[..|s| - 1]) * 10 + DigitValue(s[|s| - 1])
  }

  /** Shortest decimal spelling of `n`. */
  function DecimalDigits(n: nat): (s: string)
    ensures s != [] && AllDigits(s)
  {
    if n < 10 then [DigitChar(n)] else DecimalDigits(n / 10) + [DigitChar(n % 10)]
  }

  /** Sscanf(line, "%s = %d", &name, &num): the sample when the scan succeeds,
      None when it fails. */
  function ParseLine(line: string): (r: Option<Sample>)
    ensures r.Some? ==> IsToken(r.value.name) && MinInt <= r.value.value <= MaxInt
  {
    var start := SkipSpaces(line, 0);
    var stop := TokenEnd(line, start);
    if stop == start || stop == |line| then None
    else
      var eq := SkipSpaces(line, stop);
      if eq == |line| || line[eq] != '=' then None
      else if eq + 1 == |line| || !IsSpace(line[eq + 1]) then None
      else
        var num := SkipSpaces(line, eq + 1);
        var signed := num < |line| && (line[num] == '+' || line[num] == '-');
        var first := if signed then num + 1 else num;
        var last := NumberEnd(line, first);
        if last == first then None
        else
          NumberHasOnlyDigits(line, first);
          var magnitude: int := DecimalValue(line[first..last]);
          var value := if signed && line[num] == '-' then -magnitude else magnitude;
          if value < MinInt || value > MaxInt then None
          else
            TokenHasNoBlanks(line, start);
            Some(Sample(line[start..stop], value))
  }

  /** The pieces of a line that "%s = %d" matches, in order: leading blanks,
      the name, the blanks before '=', the blanks after it, the sign, the
      digits, and the ignored rest of the line. */
  datatype Layout = Layout(lead: string, name: string, gap: string, pad: string,
                           sign: string, digits: string, rest: string)

  /** The line a layout spells. */
  function Join(l: Layout): (line: string)
  {
    l.lead + (l.name + (l.gap + ("=" + (l.pad + (l.sign + (l.digits + l.rest))))))
  }

  /** The integer the sign and digits of a layout spell. */
  function LayoutValue(l: Layout): (v: int)
    requires AllDigits(l.digits)
  {
    var m: int := DecimalValue(l.digits);
    if l.sign == "-" then -m else m
  }

  /** A layout whose every piece is what the format accepts there: blanks
      where blanks go (one or more around '='), a blank-free name, at most one
      sign, one or more digits not followed by another digit, and a value in
      the range of int. */
  predicate WellFormed(l: Layout)
  {
    && AllBlanks(l.lead) && IsToken(l.name)
    && l.gap != [] && AllBlanks(l.gap) && l.pad != [] && AllBlanks(l.pad)
    && (l.sign == "" || l.sign == "+" || l.sign == "-")
    && l.digits != [] && AllDigits(l.digits)
    && (l.rest == [] || !IsDigit(l.rest[0]))
    && MinInt <= LayoutValue(l) <= MaxInt
  }

  lemma {:induction false} DecimalRoundTrip(n: nat)
    ensures DecimalValue(DecimalDigits(n)) == n
  {
    if n >= 10 {
      var s := DecimalDigits(n);
      assert s[..|s| - 1] == DecimalDigits(n / 10);
      DecimalRoundTrip(n / 10);
    }
  }

  /** A run of blanks ended by a non-blank or the end of the line is where SkipSpaces stops. */
  lemma {:induction false} SkipSpacesIs(s: string, i: nat, j: nat)
    requires i <= j <= |s|
    requires forall k :: i <= k < j ==> IsSpace(s[k])
    requires j < |s| ==> !IsSpace(s[j])
    ensures SkipSpaces(s, i) == j
    decreases j - i
  {
    if i < j {
      SkipSpacesIs(s, i + 1, j);
    }
  }

  /** A run of non-blanks ended by a blank or the end of the line is where TokenEnd stops. */
  lemma {:induction false} TokenEndIs(s: string, i: nat, j: nat)
    requires i <= j <= |s|
    requires forall k :: i <= k < j ==> !IsSpace(s[k])
    requires j < |s| ==> IsSpace(s[j])
    ensures TokenEnd(s, i) == j
    decreases j - i
  {
    if i < j {
      TokenEndIs(s, i + 1, j);
    }
  }

  /** A run of digits ended by a non-digit or the end of the line is where NumberEnd stops. */
  lemma {:induction false} NumberEndIs(s: string, i: nat, j: nat)
    requires i <= j <= |s|
    requires forall k :: i <= k < j ==> IsDigit(s[k])
    requires j < |s| ==> !IsDigit(s[j])
    ensures NumberEnd(s, i) == j
    decreases j - i
  {
    if i < j {
      NumberEndIs(s, i + 1, j);
    }
  }

  /** Blanks at `i`, then something that does not start with a blank: the
      blanks are what SkipSpaces passes over. */
  lemma BlankPart(line: string, i: nat, b: string, tail: string)
    requires i <= |line| && line[i..] == b + tail && AllBlanks(b)
    requires tail == [] || !IsSpace(tail[0])
    ensures i + |b| <= |line| && SkipSpaces(line, i) == i + |b| && line[i + |b|..] == tail
    ensures b != [] ==> IsSpace(line[i])
  {
    forall k | i <= k < i + |b| ensures IsSpace(line[k]) {
      assert line[k] == line[i..][k - i] == b[k - i];
    }
    if i + |b| < |line| {
      assert line[i + |b|] == line[i..][|b|] == tail[0];
    }
    SkipSpacesIs(line, i, i + |b|);
    assert line[i + |b|..] == line[i..][|b|..];
  }

  /** A blank-free name at `i`, followed by a blank: %s yields the name. */
  lemma NamePart(line: string, i: nat, name: string, tail: string)
    requires i <= |line| && line[i..] == name + tail && IsToken(name)
    requires tail != [] && IsSpace(tail[0])
    ensures i + |name| < |line| && TokenEnd(line, i) == i + |name|
    ensures line[i..i + |name|] == name && line[i + |name|..] == tail
  {
    forall k | i <= k < i + |name| ensures !IsSpace(line[k]) {
      assert line[k] == line[i..][k - i] == name[k - i];
    }
    assert line[i + |name|] == line[i..][|name|] == tail[0];
    TokenEndIs(line, i, i + |name|);
    assert line[i..i + |name|] == line[i..][..|name|];
    assert line[i + |name|..] == line[i..][|name|..];
  }

  /** An '=' at `i`. */
  lemma EqualsPart(line: string, i: nat, tail: string)
    requires i <= |line| && line[i..] == "=" + tail
    ensures i < |line| && line[i] == '=' && line[i + 1..] == tail
  {
    assert line[i] == line[i..][0];
    assert line[i + 1..] == line[i..][1..];
  }

  /** An optional sign, then digits: a sign character is there exactly when
      the sign is not empty, and it is '-' exactly for a minus sign. */
  lemma SignPart(line: string, i: nat, sign: string, digits: string, rest: string)
    requires i <= |line| && line[i..] == sign + (digits + rest)
    requires sign == "" || sign == "+" || sign == "-"
    requires digits != [] && AllDigits(digits)
    ensures i < |line| && i + |sign| <= |line|
    ensures (line[i] == '+' || line[i] == '-') <==> sign != ""
    ensures line[i] == '-' <==> sign == "-"
    ensures line[i + |sign|..] == digits + rest
  {
    var tail := sign + (digits + rest);
    assert line[i] == tail[0];
    if sign == "" {
      assert tail[0] == digits[0];
      assert IsDigit(digits[0]);
    } else {
      assert tail[0] == sign[0];
    }
    assert line[i + |sign|..] == tail[|sign|..];
  }

  /** Digits followed by anything that does not start with a digit: %d's
      token is exactly those digits. */
  lemma DigitsPart(line: string, first: nat, digits: string, rest: string)
    requires first <= |line| && line[first..] == digits + rest
    requires AllDigits(digits)
    requires rest == [] || !IsDigit(rest[0])
    ensures first + |digits| <= |line|
    ensures NumberEnd(line, first) == first + |digits|
    ensures line[first..first + |digits|] == digits
  {
    var last := first + |digits|;
    forall k | first <= k < last ensures IsDigit(line[k]) {
      assert line[k] == line[first..][k - first] == digits[k - first];
    }
    if last < |line| {
      assert line[last] == line[first..][|digits|] == rest[0];
    }
    assert line[first..last] == line[first..][..|digits|];
    NumberEndIs(line, first, last);
  }

  /** ParseLine on a line whose scan positions are known: leading blanks up
      to `start`, the name up to `stop`, blanks up to the '=' at `eq`, blanks
      up to `num`, an optional sign, and the digits from `first` on. */
  lemma ParseLineOfParts(line: string, start: nat, stop: nat, eq: nat, num: nat, first: nat, digits: string, value: int)
    requires start < stop < |line| && eq + 1 < |line| && num < |line|
    requires SkipSpaces(line, 0) == start && TokenEnd(line, start) == stop
    requires SkipSpaces(line, stop) == eq && line[eq] == '='
    requires IsSpace(line[eq + 1]) && SkipSpaces(line, eq + 1) == num
    requires first == (if line[num] == '+' || line[num] == '-' then num + 1 else num)
    requires first + |digits| <= |line| && NumberEnd(line, first) == first + |digits|
    requires line[first..first + |digits|] == digits
    requires digits != [] && AllDigits(digits)
    requires value == (if line[num] == '-' then -(DecimalValue(digits) as int) else DecimalValue(digits))
    requires MinInt <= value <= MaxInt
    ensures ParseLine(line) == Some(Sample(line[start..stop], value))
  {
  }

  /** Blanks, then a blank-free name followed by a blank: where SkipSpaces
      and %s stop. */
  lemma LeadParts(line: string, lead: string, name: string, tail: string)
    requires AllBlanks(lead) && IsToken(name) && tail != [] && IsSpace(tail[0])
    requires line == lead + (name + tail)
    ensures SkipSpaces(line, 0) == |lead| && TokenEnd(line, |lead|) == |lead| + |name|
    ensures line[|lead|..|lead| + |name|] == name && line[|lead| + |name|..] == tail
  {
    assert line[0..] == line;
    assert (name + tail)[0] == name[0];
    BlankPart(line, 0, lead, name + tail);
    NamePart(line, |lead|, name, tail);
  }

  /** Blanks at `stop`, then '=': where the format's " =" stops. */
  lemma GapParts(line: string, stop: nat, gap: string, tail: string)
    requires gap != [] && AllBlanks(gap)
    requires stop <= |line| && line[stop..] == gap + ("=" + tail)
    ensures stop + |gap| < |line| && SkipSpaces(line, stop) == stop + |gap|
    ensures line[stop + |gap|] == '=' && line[stop + |gap| + 1..] == tail
  {
    BlankPart(line, stop, gap, "=" + tail);
    EqualsPart(line, stop + |gap|, tail);
  }

  /** Blanks, a blank-free name, blanks and '=' at the start of a line:
      where SkipSpaces, %s and the format's " = " stop. */
  lemma HeadParts(line: string, lead: string, name: string, gap: string, tail: string, stop: nat, eq: nat)
    requires AllBlanks(lead) && IsToken(name) && gap != [] && AllBlanks(gap)
    requires line == lead + (name + (gap + ("=" + tail)))
    requires stop == |lead| + |name| && eq == stop + |gap|
    ensures eq < |line|
    ensures SkipSpaces(line, 0) == |lead| && TokenEnd(line, |lead|) == stop
    ensures line[|lead|..stop] == name
    ensures SkipSpaces(line, stop) == eq && line[eq] == '=' && line[eq + 1..] == tail
  {
    var t2 := gap + ("=" + tail);
    assert t2[0] == gap[0];
    LeadParts(line, lead, name, t2);
    GapParts(line, stop, gap, tail);
  }

  /** An optional sign, then digits followed by anything that does not start
      with a digit: where %d's sign and digits lie. */
  lemma NumberParts(line: string, num: nat, sign: string, digits: string, rest: string, first: nat)
    requires sign == "" || sign == "+" || sign == "-"
    requires digits != [] && AllDigits(digits) && (rest == [] || !IsDigit(rest[0]))
    requires num <= |line| && line[num..] == sign + (digits + rest) && first == num + |sign|
    ensures num < |line| && !IsSpace(line[num])
    ensures (line[num] == '+' || line[num] == '-') <==> sign != ""
    ensures line[num] == '-' <==> sign == "-"
    ensures first + |digits| <= |line| && NumberEnd(line, first) == first + |digits|
    ensures line[first..first + |digits|] == digits
  {
    SignPart(line, num, sign, digits, rest);
    DigitsPart(line, first, digits, rest);
  }

  /** Blanks, an optional sign and digits after the '=' at `eq`, then anything
      that does not start with a digit: where %d's blanks, sign and digits lie. */
  lemma ValueParts(line: string, eq: nat, pad: string, sign: string, digits: string, rest: string, num: nat, first: nat)
    requires pad != [] && AllBlanks(pad) && (sign == "" || sign == "+" || sign == "-")
    requires digits != [] && AllDigits(digits) && (rest == [] || !IsDigit(rest[0]))
    requires eq + 1 <= |line| && line[eq + 1..] == pad + (sign + (digits + rest))
    requires num == eq + 1 + |pad| && first == num + |sign|
    ensures num < |line| && IsSpace(line[eq + 1]) && SkipSpaces(line, eq + 1) == num
    ensures (line[num] == '+' || line[num] == '-') <==> sign != ""
    ensures line[num] == '-' <==> sign == "-"
    ensures first + |digits| <= |line| && NumberEnd(line, first) == first + |digits|
    ensures line[first..first + |digits|] == digits
  {
    var t5 := sign + (digits + rest);
    assert line[num..] == t5 by {
      assert line[num..] == line[eq + 1..][|pad|..];
    }
    NumberParts(line, num, sign, digits, rest, first);
    assert line[num] == t5[0];
    BlankPart(line, eq + 1, pad, t5);
  }

  /** The line spelled by pieces the format accepts scans to the name and the
      value of the sign and digits. */
  lemma ParsePieces(line: string, lead: string, name: string, gap: string, pad: string, sign: string,
                    digits: string, rest: string, value: int, stop: nat, eq: nat, num: nat, first: nat)
    requires AllBlanks(lead) && IsToken(name) && gap != [] && AllBlanks(gap)
    requires pad != [] && AllBlanks(pad) && (sign == "" || sign == "+" || sign == "-")
    requires digits != [] && AllDigits(digits) && (rest == [] || !IsDigit(rest[0]))
    requires line == lead + (name + (gap + ("=" + (pad + (sign + (digits + rest))))))
    requires stop == |lead| + |name| && eq == stop + |gap| && num == eq + 1 + |pad| && first == num + |sign|
    requires var m: int := DecimalValue(digits); value == (if sign == "-" then -m else m)
    requires MinInt <= value <= MaxInt
    ensures ParseLine(line) == Some(Sample(name, value))
  {
    HeadParts(line, lead, name, gap, pad + (sign + (digits + rest)), stop, eq);
    ValueParts(line, eq, pad, sign, digits, rest, num, first);
    ParseLineOfParts(line, |lead|, stop, eq, num, first, digits, value);
  }

  /** A well-formed layout scans to its name and value. */
  lemma ParseJoin(l: Layout)
    requires WellFormed(l)
    ensures ParseLine(Join(l)) == Some(Sample(l.name, LayoutValue(l)))
  {
    var stop := |l.lead| + |l.name|;
    var eq := stop + |l.gap|;
    var num := eq + 1 + |l.pad|;
    ParsePieces(Join(l), l.lead, l.name, l.gap, l.pad, l.sign, l.digits, l.rest, LayoutValue(l),
                stop, eq, num, num + |l.sign|);
  }

  /** `s[i..]` split at `j`. */
  lemma SplitAt(s: string, i: nat, j: nat)
    requires i <= j <= |s|
    ensures s[i..] == s[i..j] + s[j..]
  {
  }

  /** The layout whose pieces lie between the cuts `a` <= `b` <= `c` < `d` <=
      `e` <= `f` of a line, the '=' being at `c`. */
  function CutLayout(line: string, a: nat, b: nat, c: nat, d: nat, e: nat, f: nat): (l: Layout)
    requires a <= b <= c && c + 1 <= d <= e <= f <= |line|
    ensures |l.lead| == a && |l.name| == b - a && |l.digits| == f - e
  {
    Layout(line[..a], line[a..b], line[b..c], line[c + 1..d], line[d..e], line[e..f], line[f..])
  }

  /** A line cut as above, with the '=' at `c`, is the join of its pieces. */
  lemma JoinOfCuts(line: string, a: nat, b: nat, c: nat, d: nat, e: nat, f: nat)
    requires a <= b <= c && c + 1 <= d <= e <= f <= |line| && line[c] == '='
    ensures Join(CutLayout(line, a, b, c, d, e, f)) == line
  {
    var l := CutLayout(line, a, b, c, d, e, f);
    assert l.digits + l.rest == line[e..] by { SplitAt(line, e, f); }
    assert l.sign + line[e..] == line[d..] by { SplitAt(line, d, e); }
    assert l.pad + line[d..] == line[c + 1..] by { SplitAt(line, c + 1, d); }
    assert "=" + line[c + 1..] == line[c..];
    assert l.gap + line[c..] == line[b..] by { SplitAt(line, b, c); }
    assert l.name + line[b..] == line[a..] by { SplitAt(line, a, b); }
    assert l.lead + line[a..] == line;
  }

  /** The blanks, name and gap of a line cut where the scan stopped are what
      the layout demands of them. */
  lemma HeadCutsWellFormed(line: string, start: nat, stop: nat, eq: nat)
    requires start == SkipSpaces(line, 0) && start < stop < |line| && stop == TokenEnd(line, start)
    requires eq == SkipSpaces(line, stop) && eq < |line| && line[eq] == '='
    ensures stop < eq
    ensures AllBlanks(line[..start]) && IsToken(line[start..stop]) && AllBlanks(line[stop..eq])
  {
    SkippedAreBlanks(line, 0);
    TokenHasNoBlanks(line, start);
    SkippedAreBlanks(line, stop);
    assert IsSpace(line[stop]);
  }

  /** The pad, sign, digits and rest of a line cut where the scan stopped are
      what the layout demands of them, and spell the scanned value. */
  lemma ValueCutsWellFormed(line: string, eq: nat, num: nat, first: nat, last: nat)
    requires eq + 1 < |line| && IsSpace(line[eq + 1]) && num == SkipSpaces(line, eq + 1)
    requires first == (if num < |line| && (line[num] == '+' || line[num] == '-') then num + 1 else num)
    requires last == NumberEnd(line, first) && first < last
    ensures eq + 1 < num <= first && AllBlanks(line[eq + 1..num]) && AllDigits(line[first..last])
    ensures var sign := line[num..first]; sign == "" || sign == "+" || sign == "-"
    ensures line[num..first] == "-" <==> first == num + 1 && line[num] == '-'
    ensures last == |line| || !IsDigit(line[last..][0])
  {
    SkippedAreBlanks(line, eq + 1);
    NumberHasOnlyDigits(line, first);
    if num < |line| && (line[num] == '+' || line[num] == '-') {
      assert line[num..first] == [line[num]];
    } else {
      assert line[num..first] == "";
    }
    if last < |line| {
      assert line[last..][0] == line[last];
    }
  }

  /** What a successful scan found, at the positions where it stopped. */
  lemma ScanPositions(line: string, start: nat, stop: nat, eq: nat, num: nat, first: nat, last: nat)
    requires ParseLine(line).Some?
    requires start == SkipSpaces(line, 0) && start <= |line| && stop == TokenEnd(line, start)
    requires stop <= |line| && eq == SkipSpaces(line, stop)
    requires eq < |line| ==> num == SkipSpaces(line, eq + 1)
    requires first == (if num < |line| && (line[num] == '+' || line[num] == '-') then num + 1 else num)
    requires first <= |line| && last == NumberEnd(line, first)
    ensures start < stop < |line| && eq + 1 < |line| && line[eq] == '=' && IsSpace(line[eq + 1])
    ensures first < last && AllDigits(line[first..last])
    ensures var m: int := DecimalValue(line[first..last]);
            ParseLine(line).value == Sample(line[start..stop], if first == num + 1 && line[num] == '-' then -m else m)
  {
    NumberHasOnlyDigits(line, first);
  }

  /** The layout of a line cut where a successful scan stopped is well formed,
      joins back to the line, and spells the scanned name and value. */
  lemma ShapeOfCuts(line: string, start: nat, stop: nat, eq: nat, num: nat, first: nat, last: nat, value: int)
    requires start <= stop < eq && eq + 1 < num <= first < last <= |line| && line[eq] == '='
    requires AllBlanks(line[..start]) && IsToken(line[start..stop]) && AllBlanks(line[stop..eq])
    requires AllBlanks(line[eq + 1..num]) && AllDigits(line[first..last])
    requires var sign := line[num..first]; sign == "" || sign == "+" || sign == "-"
    requires line[num..first] == "-" <==> first == num + 1 && line[num] == '-'
    requires last == |line| || !IsDigit(line[last..][0])
    requires var m: int := DecimalValue(line[first..last]);
             value == (if first == num + 1 && line[num] == '-' then -m else m)
    requires MinInt <= value <= MaxInt
    ensures var l := CutLayout(line, start, stop, eq, num, first, last);
            WellFormed(l) && Join(l) == line && l.name == line[start..stop] && LayoutValue(l) == value
  {
    JoinOfCuts(line, start, stop, eq, num, first, last);
  }

  /** A line that scans is the join of a well-formed layout of its sample: the
      name is the first blank-delimited token, '=' follows after blanks, and
      the value is spelled by the optional sign and the digits after it. */
  lemma ParsedLineShape(line: string)
    requires ParseLine(line).Some?
    ensures exists l :: WellFormed(l) && Join(l) == line && ParseLine(line).value == Sample(l.name, LayoutValue(l))
  {
    var start := SkipSpaces(line, 0);
    var stop := TokenEnd(line, start);
    var eq := SkipSpaces(line, stop);
    var num := if eq < |line| then SkipSpaces(line, eq + 1) else eq;
    var first := if num < |line| && (line[num] == '+' || line[num] == '-') then num + 1 else num;
    var last := NumberEnd(line, first);
    ScanPositions(line, start, stop, eq, num, first, last);
    HeadCutsWellFormed(line, start, stop, eq);
    ValueCutsWellFormed(line, eq, num, first, last);
    var value := ParseLine(line).value.value;
    ShapeOfCuts(line, start, stop, eq, num, first, last, value);
    var l := CutLayout(line, start, stop, eq, num, first, last);
    assert WellFormed(l) && Join(l) == line && ParseLine(line).value == Sample(l.name, LayoutValue(l));
  }

  /** Scanning, both ways: a line scans to `s` exactly when it is the join of
      a well-formed layout of `s`. */
  lemma ParseLineMeaning(line: string, s: Sample)
    ensures ParseLine(line) == Some(s)
        <==> exists l :: WellFormed(l) && Join(l) == line && s == Sample(l.name, LayoutValue(l))
  {
    if ParseLine(line) == Some(s) {
      ParsedLineShape(line);
    }
    if exists l :: WellFormed(l) && Join(l) == line && s == Sample(l.name, LayoutValue(l)) {
      var l :| WellFormed(l) && Join(l) == line && s == Sample(l.name, LayoutValue(l));
      ParseJoin(l);
    }
  }

  /** The sign the canonical spelling of `v` starts with. */
  function SignOf(v: int): (sign: string)
  {
    if v < 0 then "-" else ""
  }

  function Magnitude(v: int): (m: nat)
  {
    if v < 0 then -v else v
  }

  /** The canonical line the producer prints for a sample: `NAME = VALUE`. */
  function FormatSample(s: Sample): (line: string)
  {
    s.name + (" = " + (SignOf(s.value) + DecimalDigits(Magnitude(s.value))))
  }

  /** The layout of a canonical line followed by `rest`. */
  function CanonicalLayout(s: Sample, rest: string): (l: Layout)
  {
    Layout([], s.name, " ", " ", SignOf(s.value), DecimalDigits(Magnitude(s.value)), rest)
  }

  /** A canonical line of an int value, followed by anything that does not
      start with a digit, scans back to the same sample: the scanner ignores
      trailing input. */
  lemma ParseFormattedLine(s: Sample, rest: string)
    requires IsToken(s.name) && MinInt <= s.value <= MaxInt
    requires rest == [] || !IsDigit(rest[0])
    ensures ParseLine(FormatSample(s) + rest) == Some(s)
  {
    var sign, digits := SignOf(s.value), DecimalDigits(Magnitude(s.value));
    var l := CanonicalLayout(s, rest);
    DecimalRoundTrip(Magnitude(s.value));
    assert LayoutValue(l) == s.value;
    var x := sign + (digits + rest);
    assert (s.name + (" = " + (sign + digits))) + rest == s.name + ((" = " + (sign + digits)) + rest);
    assert (" = " + (sign + digits)) + rest == " = " + x;
    assert " = " + x == " " + ("=" + (" " + x));
    assert [] + (s.name + (" " + ("=" + (" " + x)))) == s.name + (" " + ("=" + (" " + x)));
    ParseJoin(l);
  }

  /** Scanning inverts formatting for every sample whose name is a token and
      whose value is an int. */
  lemma ParseFormatRoundTrip(s: Sample)
    requires IsToken(s.name) && MinInt <= s.value <= MaxInt
    ensures ParseLine(FormatSample(s)) == Some(s)
  {
    ParseFormattedLine(s, []);
    assert FormatSample(s) + [] == FormatSample(s);
  }

  /** %d reads decimal digits only: an underscore ends the number, so
      `VIN = 12_3` scans as VIN = 12. */
  lemma UnderscoreEndsNumber()
    ensures ParseLine("VIN = 12_3") == Some(Sample("VIN", 12))
  {
    assert DecimalDigits(1) == "1";
    assert DecimalDigits(12) == "12";
    assert FormatSample(Sample("VIN", 12)) + "_3" == "VIN = 12_3";
    ParseFormattedLine(Sample("VIN", 12), "_3");
  }

  /** Text after the number, such as a unit, is ignored. */
  lemma TrailingInputIgnored()
    ensures ParseLine("VIN = 5000 mV") == Some(Sample("VIN", 5000))
  {
    assert DecimalDigits(5) == "5";
    assert DecimalDigits(50) == "50";
    assert DecimalDigits(500) == "500";
    assert DecimalDigits(5000) == "5000";
    assert FormatSample(Sample("VIN", 5000)) + " mV" == "VIN = 5000 mV";
    ParseFormattedLine(Sample("VIN", 5000), " mV");
  }
}
