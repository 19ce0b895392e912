/**
  The JavaScript built-ins the media server's core leans on, over strings as
  sequences of characters: `String.prototype.split` with a one-character
  separator, `endsWith`, `parseInt` without a radix, the conversion of an
  integral Number back to text, and the stream-path pattern `/\/(.*)\/(.*)/`
  that both the transmuxing and the relay server execute on a stream path.
*/
module JsText {

  datatype Option<+T> = None | Some(value: T)

  /** `s.endsWith(suffix)` */
  predicate EndsWith(s: string, suffix: string) {
    |suffix| <= |s| && s[|s| - |suffix|..] == suffix
  }

  // ---------------------------------------------------------------------------
  // split / join with a one-character separator
  // ---------------------------------------------------------------------------

  /** `s.split(sep)`: the fields between separators, at least one (possibly empty). */
  function Split(s: string, sep: char): (r: seq<string>)
    ensures |r| >= 1
    ensures forall i :: 0 <= i < |r| ==> sep !in r[i]
  {
    if s == [] then [""]
    else
      var rest := Split(s[1..], sep);
      if s[0] == sep then [""] + rest
      else [[s[0]] + rest[0]] + rest[1..]
  }

  /** `parts.join(sep)` */
  function Join(parts: seq<string>, sep: char): string {
    if |parts| == 0 then ""
    else if |parts| == 1 then parts[0]
    else parts[0] + [sep] + Join(parts[1..], sep)
  }

  /** Splitting and joining again gives back the text. */
  lemma {:induction false} JoinSplit(s: string, sep: char)
    ensures Join(Split(s, sep), sep) == s
  {
    if s != [] {
      var rest := Split(s[1..], sep);
      JoinSplit(s[1..], sep);
      if s[0] == sep {
        assert Split(s, sep) == [""] + rest;
      } else {
        var r := Split(s, sep);
        assert r == [[s[0]] + rest[0]] + rest[1..];
        if |rest| == 1 {
          assert Join(r, sep) == [s[0]] + rest[0];
        } else {
          assert Join(rest, sep) == rest[0] + [sep] + Join(rest[1..], sep);
          assert r[1..] == rest[1..];
          assert Join(r, sep) == [s[0]] + rest[0] + [sep] + Join(rest[1..], sep);
        }
      }
    }
  }

  /** A text without the separator is a single field. */
  lemma {:induction false} SplitNoSeparator(a: string, sep: char)
    requires sep !in a
    ensures Split(a, sep) == [a]
  {
    if a != [] {
      SplitNoSeparator(a[1..], sep);
      assert a[0] != sep;
      assert [a[0]] + a[1..] == a;
    }
  }

  /** The first field is the text before the first separator; the rest is split on its own. */
  lemma {:induction false} SplitFirstField(a: string, b: string, sep: char)
    requires sep !in a
    ensures Split(a + [sep] + b, sep) == [a] + Split(b, sep)
  {
    if a == [] {
      assert a + [sep] + b == [sep] + b;
      assert ([sep] + b)[1..] == b;
    } else {
      SplitFirstField(a[1..], b, sep);
      assert (a + [sep] + b)[1..] == a[1..] + [sep] + b;
      assert [a[0]] + a[1..] == a;
    }
  }

  /** Joining fields that do not contain the separator and splitting again gives back the fields. */
  lemma {:induction false} SplitJoin(parts: seq<string>, sep: char)
    requires |parts| >= 1
    requires forall i :: 0 <= i < |parts| ==> sep !in parts[i]
    ensures Split(Join(parts, sep), sep) == parts
  {
    if |parts| == 1 {
      SplitNoSeparator(parts[0], sep);
    } else {
      SplitJoin(parts[1..], sep);
      SplitFirstField(parts[0], Join(parts[1..], sep), sep);
      assert [parts[0]] + parts[1..] == parts;
    }
  }

  // ---------------------------------------------------------------------------
  // Numbers: parseInt and the decimal text of an integral Number
  // ---------------------------------------------------------------------------

  /** An integral JavaScript Number, or NaN. */
  datatype JsNumber = NaN | Num(value: int)

  /** The characters `parseInt` skips before the number (StrWhiteSpaceChar). */
  predicate IsStrWhiteSpace(c: char) {
    c == ' ' || c == '\t' || c == '\n' || c == '\r' || c == '\U{B}' || c == '\U{C}'
    || c == '\U{A0}' || c == '\U{FEFF}' || c == '\U{1680}' || ('\U{2000}' <= c <= '\U{200A}')
    || c == '\U{2028}' || c == '\U{2029}' || c == '\U{202F}' || c == '\U{205F}' || c == '\U{3000}'
  }

  function TrimStart(s: string): (r: string)
    ensures |r| <= |s| && r == s[|s| - |r|..]
    ensures r != [] ==> !IsStrWhiteSpace(r[0])
  {
    if s != [] && IsStrWhiteSpace(s[0]) then TrimStart(s[1..]) else s
  }

  /** The value of `c` as a digit of the given radix (10 or 16), if it is one. */
  function RadixDigit(c: char, radix: nat): (d: Option<nat>)
    ensures d.Some? ==> d.value < radix
  {
    if '0' <= c <= '9' && (c as int - '0' as int) < radix then Some(c as int - '0' as int)
    else if radix == 16 && 'a' <= c <= 'f' then Some(c as int - 'a' as int + 10)
    else if radix == 16 && 'A' <= c <= 'F' then Some(c as int - 'A' as int + 10)
    else None
  }

  predicate AllDigits(s: string, radix: nat) {
    forall i :: 0 <= i < |s| ==> RadixDigit(s[i], radix).Some?
  }

  /** The longest prefix of `s` made of digits of the radix. */
  function LeadingDigits(s: string, radix: nat): (z: string)
    ensures |z| <= |s| && z == s[..|z|]
    ensures AllDigits(z, radix)
    ensures |z| < |s| ==> RadixDigit(s[|z|], radix).None?
  {
    if s != [] && RadixDigit(s[0], radix).Some? then [s[0]] + LeadingDigits(s[1..], radix) else []
  }

  /** The value of a digit string, most significant digit first. */
  function DigitsValue(z: string, radix: nat): nat
    requires AllDigits(z, radix)
  {
    if z == [] then 0
    else DigitsValue(z[..|z| - 1], radix) * radix + RadixDigit(z[|z| - 1], radix).value
  }

  /**
    `parseInt(s)` with no radix: skip white space, take an optional sign, read
    hexadecimal after a `0x`/`0X` prefix and decimal otherwise, stop at the
    first character that is not a digit; NaN when no digit was read.
  */
  function ParseInt(s: string): JsNumber {
    var t := TrimStart(s);
    var negative := |t| > 0 && t[0] == '-';
    var u := if |t| > 0 && (t[0] == '-' || t[0] == '+') then t[1..] else t;
    var hex := |u| >= 2 && u[0] == '0' && (u[1] == 'x' || u[1] == 'X');
    var radix := if hex then 16 else 10;
    var z := LeadingDigits(if hex then u[2..] else u, radix);
    if z == [] then NaN
    else
      var v: int := DigitsValue(z, radix);
      Num(if negative then -v else v)
  }

  /** `x | 0`: the Number as a signed 32-bit integer. */
  function ToInt32(x: int): (r: int)
    ensures -0x8000_0000 <= r < 0x8000_0000
    ensures (r - x) % 0x1_0000_0000 == 0
  {
    var m := x % 0x1_0000_0000;
    if m >= 0x8000_0000 then m - 0x1_0000_0000 else m
  }

  function DigitChar(d: nat): char
    requires d < 10
  {
    ('0' as int + d) as char
  }

  /** The decimal text of a natural number, as `String(n)` prints it. */
  function NatToString(n: nat): (s: string)
    ensures |s| >= 1
    ensures AllDigits(s, 10)
    ensures s[0] == '0' ==> n == 0
  {
    if n < 10 then [DigitChar(n)] else NatToString(n / 10) + [DigitChar(n % 10)]
  }

  /** `String(x)` for an integral Number or NaN. */
  function NumberToString(x: JsNumber): string {
    match x
    case NaN => "NaN"
    case Num(v) => if v < 0 then "-" + NatToString(-v) else NatToString(v)
  }

  lemma {:induction false} DigitsValueOfNatToString(n: nat)
    ensures DigitsValue(NatToString(n), 10) == n
  {
    if n >= 10 {
      DigitsValueOfNatToString(n / 10);
      var s := NatToString(n);
      assert s[..|s| - 1] == NatToString(n / 10);
    }
  }

  lemma {:induction false} LeadingDigitsOfDigits(s: string, radix: nat)
    requires AllDigits(s, radix)
    ensures LeadingDigits(s, radix) == s
  {
    if s != [] {
      assert RadixDigit(s[0], radix).Some?;
      LeadingDigitsOfDigits(s[1..], radix);
    }
  }

  /** A decimal digit is neither white space, a sign nor the `x` of a hexadecimal prefix. */
  lemma DigitIsPlain(c: char)
    requires RadixDigit(c, 10).Some?
    ensures !IsStrWhiteSpace(c) && c != '-' && c != '+' && c != 'x' && c != 'X'
  {
  }

  /** Text with no leading white space, sign or `0x` prefix is read in decimal from its first character. */
  lemma ParseIntPlain(s: string)
    requires TrimStart(s) == s && (|s| > 0 ==> s[0] != '-' && s[0] != '+')
    requires |s| >= 2 ==> s[1] != 'x' && s[1] != 'X'
    ensures ParseInt(s) == if LeadingDigits(s, 10) == [] then NaN else Num(DigitsValue(LeadingDigits(s, 10), 10))
  {
    var t := TrimStart(s);
    assert t == s;
    assert !(|t| > 0 && (t[0] == '-' || t[0] == '+'));
    assert !(|t| >= 2 && t[0] == '0' && (t[1] == 'x' || t[1] == 'X'));
  }

  /** A decimal digit string without a leading zero parses as its value. */
  lemma ParseIntOfDigits(s: string)
    requires |s| >= 1 && AllDigits(s, 10)
    requires |s| >= 2 ==> s[0] != '0'
    ensures ParseInt(s) == Num(DigitsValue(s, 10))
  {
    DigitIsPlain(s[0]);
    if |s| >= 2 {
      DigitIsPlain(s[1]);
    }
    assert TrimStart(s) == s;
    ParseIntPlain(s);
    LeadingDigitsOfDigits(s, 10);
  }

  /** `parseInt(String(n)) == n` for every natural number. */
  lemma ParseIntOfNatToString(n: nat)
    ensures ParseInt(NatToString(n)) == Num(n)
  {
    var s := NatToString(n);
    assert |s| >= 2 ==> s[0] != '0' by {
      if n == 0 {
        assert s == [DigitChar(0)];
      }
    }
    ParseIntOfDigits(s);
    DigitsValueOfNatToString(n);
  }

  // ---------------------------------------------------------------------------
  // Searching
  // ---------------------------------------------------------------------------

  /** The index of the last `c` in `s`, or -1. */
  function LastIndexOf(s: string, c: char): (k: int)
    ensures -1 <= k < |s|
    ensures k >= 0 ==> s[k] == c && c !in s[k + 1..]
    ensures k == -1 <==> c !in s
  {
    if s == [] then -1
    else if s[|s| - 1] == c then |s| - 1
    else
      var k := LastIndexOf(s[..|s| - 1], c);
      assert s == s[..|s| - 1] + [s[|s| - 1]];
      k
  }

  /** The characters that `.` in a regular expression does not match. */
  predicate IsLineTerminator(c: char) {
    c == '\n' || c == '\r' || c == '\U{2028}' || c == '\U{2029}'
  }

  predicate NoLineTerminator(s: string) {
    forall i :: 0 <= i < |s| ==> !IsLineTerminator(s[i])
  }

  /** The prefix of `s` before its first line terminator. */
  function FirstLine(s: string): (r: string)
    ensures |r| <= |s| && r == s[..|r|]
    ensures NoLineTerminator(r)
    ensures NoLineTerminator(s) ==> r == s
  {
    if s == [] || IsLineTerminator(s[0]) then [] else [s[0]] + FirstLine(s[1..])
  }

  /**
    `/\/(.*)\/(.*)/.exec(s)`, returning the two groups: the leftmost '/' that is
    followed, on the same line, by another '/'; the first group runs greedily to
    the last '/' of that line and the second group to the end of the line.
  */
  function ExecAppStream(s: string): Option<(string, string)> {
    if s == [] then None
    else if s[0] == '/' then
      var line := FirstLine(s[1..]);
      var q := LastIndexOf(line, '/');
      if q >= 0 then Some((line[..q], line[q + 1..])) else ExecAppStream(s[1..])
    else ExecAppStream(s[1..])
  }

  /**
    On a one-line path, the pattern splits at the first and the last '/': the
    application is the text between them, the stream name the text after the last.
  */
  lemma {:induction false} ExecAppStreamSplits(pre: string, mid: string, post: string)
    requires '/' !in pre && '/' !in post
    requires NoLineTerminator(pre + "/" + mid + "/" + post)
    ensures ExecAppStream(pre + "/" + mid + "/" + post) == Some((mid, post))
  {
    var s := pre + "/" + mid + "/" + post;
    if pre == [] {
      assert s[0] == '/';
      var rest := mid + "/" + post;
      assert s[1..] == rest;
      assert NoLineTerminator(rest) by {
        forall i | 0 <= i < |rest| ensures !IsLineTerminator(rest[i]) {
          assert rest[i] == s[i + 1];
        }
      }
      assert FirstLine(rest) == rest;
      var q := LastIndexOf(rest, '/');
      assert rest[|mid|] == '/';
      assert rest[|mid| + 1..] == post;
      assert q == |mid|;
      assert rest[..q] == mid;
      assert rest[q + 1..] == post;
    } else {
      assert s[0] == pre[0] && pre[0] != '/';
      assert s[1..] == pre[1..] + "/" + mid + "/" + post;
      ExecAppStreamSplits(pre[1..], mid, post);
    }
  }

  /** The number of occurrences of `c` in `s`. */
  function CountOf(s: string, c: char): nat {
    if s == [] then 0 else (if s[0] == c then 1 else 0) + CountOf(s[1..], c)
  }

  lemma {:induction false} CountOfZero(s: string, c: char)
    requires CountOf(s, c) == 0
    ensures c !in s
  {
    if s != [] {
      CountOfZero(s[1..], c);
      assert s == [s[0]] + s[1..];
    }
  }

  /** A path with fewer than two '/' does not match the pattern. */
  lemma {:induction false} ExecAppStreamNeedsTwoSlashes(s: string)
    requires CountOf(s, '/') < 2
    ensures ExecAppStream(s) == None
  {
    if s != [] {
      if s[0] == '/' {
        CountOfZero(s[1..], '/');
        var line := FirstLine(s[1..]);
        ExecAppStreamNoSlash(s[1..]);
      } else {
        ExecAppStreamNeedsTwoSlashes(s[1..]);
      }
    }
  }

  lemma {:induction false} ExecAppStreamNoSlash(s: string)
    requires '/' !in s
    ensures ExecAppStream(s) == None
  {
    if s != [] {
      ExecAppStreamNoSlash(s[1..]);
    }
  }

  // ---------------------------------------------------------------------------
  // Array.prototype.filter
  // ---------------------------------------------------------------------------

  /** `s.filter(p)`: the elements that satisfy `p`, in their original order. */
  function Filter<T(!new)>(s: seq<T>, p: T -> bool): (r: seq<T>)
    ensures |r| <= |s|
    ensures forall x :: x in r <==> x in s && p(x)
  {
    if s == [] then []
    else
      var rest := Filter(s[1..], p);
      assert forall x :: x in s <==> x == s[0] || x in s[1..];
      if p(s[0]) then [s[0]] + rest else rest
  }

  /** Filtering a sequence extended at the end. */
  lemma {:induction false} FilterSnoc<T(!new)>(s: seq<T>, x: T, p: T -> bool)
    ensures Filter(s + [x], p) == Filter(s, p) + (if p(x) then [x] else [])
  {
    if s != [] {
      assert (s + [x])[1..] == s[1..] + [x];
      FilterSnoc(s[1..], x, p);
    }
  }

  // ---------------------------------------------------------------------------
  // Sequences and maps
  // ---------------------------------------------------------------------------

  /** `s[s.length - 1]`. */
  function Last<T>(s: seq<T>): T
    requires s != []
  {
    s[|s| - 1]
  }

  /** Concatenation regrouped to the right. */
  lemma Regroup<T>(a: seq<T>, b: seq<T>, c: seq<T>)
    ensures a + b + c == a + (b + c)
  {
  }

  /** Setting a key twice keeps the second value. */
  lemma UpdateTwice<K, V>(m: map<K, V>, k: K, a: V, b: V)
    ensures m[k := a][k := b] == m[k := b]
  {
  }
}
