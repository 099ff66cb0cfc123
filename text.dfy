/** The text handling the loaders share: whitespace tokenising as `>>` on an
    istringstream does it, getline-style splitting on '/', the numeric reads,
    trailing-blank trimming, directory extraction, and the byte-wise string
    order std::map keeps its keys in. */
module Text {
  import opened Wrappers

  /** The files a loader can open, each as its lines (std::getline on '\n');
      a path that is not a key cannot be opened. */
  type FileSystem = map<string, seq<string>>

  /** The characters `>>` skips between tokens. */
  predicate IsSpace(c: char) {
    c == ' ' || c == '\t' || c == '\n' || c == '\r' || c == '\U{000B}' || c == '\U{000C}'
  }

  predicate IsDigit(c: char) {
    '0' <= c <= '9'
  }

  predicate AllDigits(s: string) {
    forall i :: 0 <= i < |s| ==> IsDigit(s[i])
  }

  /** Number of leading characters of s that are not blanks. */
  function WordLength(s: string): (n: nat)
    ensures n <= |s|
    ensures forall i :: 0 <= i < n ==> !IsSpace(s[i])
    ensures n < |s| ==> IsSpace(s[n])
  {
    if |s| == 0 || IsSpace(s[0]) then 0 else 1 + WordLength(s[1..])
  }

  /** The words `>>` extracts from s, in order. */
  function Tokens(s: string): (ts: seq<string>)
    ensures forall k :: 0 <= k < |ts| ==> |ts[k]| > 0 && forall i :: 0 <= i < |ts[k]| ==> !IsSpace(ts[k][i])
    decreases |s|
  {
    if |s| == 0 then []
    else if IsSpace(s[0]) then Tokens(s[1..])
    else
      var n := WordLength(s);
      [s[..n]] + Tokens(s[n..])
  }

  /** The first word of s (what `iss >> prefix` reads), "" when s is blank. */
  function FirstToken(s: string): (t: string)
    ensures |Tokens(s)| > 0 ==> t == Tokens(s)[0]
    ensures |Tokens(s)| == 0 ==> t == ""
    decreases |s|
  {
    if |s| == 0 then ""
    else if IsSpace(s[0]) then FirstToken(s[1..])
    else s[..WordLength(s)]
  }

  /** The words after the first: what `iss >> a >> b ...` reads once the
      prefix has been consumed. */
  function Args(s: string): (ws: seq<string>)
    ensures |Tokens(s)| > 0 ==> ws == Tokens(s)[1..]
    ensures |Tokens(s)| == 0 ==> ws == []
  {
    var ts := Tokens(s);
    if |ts| == 0 then [] else ts[1..]
  }

  /** What is left of s after `iss >> prefix` (the text getline reads next). */
  function AfterFirstToken(s: string): (rest: string)
    ensures |rest| <= |s|
    decreases |s|
  {
    if |s| == 0 then ""
    else if IsSpace(s[0]) then AfterFirstToken(s[1..])
    else s[WordLength(s)..]
  }

  /** Reading the rest of a line yields exactly the words after the first. */
  lemma {:induction false} TokensAfterFirst(s: string)
    requires |Tokens(s)| > 0
    ensures Tokens(AfterFirstToken(s)) == Tokens(s)[1..]
    decreases |s|
  {
    if IsSpace(s[0]) {
      TokensAfterFirst(s[1..]);
    }
  }

  /** The fields std::getline(stream, field, sep) yields: the text between
      separators, where a separator at the very end opens no further field. */
  function GetlineFields(s: string, sep: char): (fs: seq<string>)
    ensures forall k :: 0 <= k < |fs| ==> sep !in fs[k]
    ensures |s| == 0 <==> |fs| == 0
    decreases |s|
  {
    if |s| == 0 then []
    else if s[0] == sep then [""] + GetlineFields(s[1..], sep)
    else
      var rest := GetlineFields(s[1..], sep);
      if |rest| == 0 then [[s[0]]]
      else if s[1] == sep then [[s[0]]] + rest[1..]
      else [[s[0]] + rest[0]] + rest[1..]
  }

  /** The value of a decimal digit (0 for any other character). */
  function DigitValue(c: char): (d: nat)
    ensures d <= 9
  {
    if IsDigit(c) then c as int - '0' as int else 0
  }

  /** The value of a run of decimal digits (meaningful when AllDigits(s)). */
  function DigitsValue(s: string): nat
  {
    if |s| == 0 then 0 else 10 * DigitsValue(s[..|s| - 1]) + DigitValue(s[|s| - 1])
  }

  function Pow10(n: nat): (p: nat)
    ensures p >= 1
  {
    if n == 0 then 1 else 10 * Pow10(n - 1)
  }

  /** The decimal numeral of n, the inverse of DigitsValue. */
  function NatToDigits(n: nat): (s: string)
    ensures AllDigits(s) && |s| > 0
  {
    if n < 10 then [('0' as int + n) as char] else NatToDigits(n / 10) + [('0' as int + n % 10) as char]
  }

  /** Reading back a printed number gives the number. */
  lemma {:induction false} DigitsRoundTrip(n: nat)
    ensures DigitsValue(NatToDigits(n)) == n
  {
    var s := NatToDigits(n);
    if n >= 10 {
      DigitsRoundTrip(n / 10);
      assert s[..|s| - 1] == NatToDigits(n / 10);
    }
  }

  /** Number of digits in s from position `from` on. */
  function DigitRun(s: string, from: nat): (n: nat)
    requires from <= |s|
    ensures from + n <= |s|
    ensures from + n < |s| ==> !IsDigit(s[from + n])
    decreases |s| - from
  {
    if from == |s| || !IsDigit(s[from]) then 0 else 1 + DigitRun(s, from + 1)
  }

  /** The digit run from `from` ends at `to` when every character in
      between is a digit and s[to] is not. */
  lemma {:induction false} DigitRunUpTo(s: string, from: nat, to: nat)
    requires from <= to <= |s|
    requires forall k :: from <= k < to ==> IsDigit(s[k])
    requires to == |s| || !IsDigit(s[to])
    ensures DigitRun(s, from) == to - from
    decreases |s| - from
  {
    if from < to {
      DigitRunUpTo(s, from + 1, to);
    }
  }

  /** std::stoi succeeds: an optional sign followed by at least one digit. */
  predicate HasIntPrefix(s: string) {
    (|s| > 0 && IsDigit(s[0])) ||
    (|s| > 1 && (s[0] == '-' || s[0] == '+') && IsDigit(s[1]))
  }

  /** std::stoi: the value of the leading signed digit run (the rest is ignored). */
  function IntPrefixValue(s: string): (v: int)
    requires HasIntPrefix(s)
  {
    if IsDigit(s[0]) then DigitsValue(s[..DigitRun(s, 0)])
    else
      var m: int := DigitsValue(s[1..1 + DigitRun(s, 1)]);
      if s[0] == '-' then -m else m
  }

  /** stoi reads back any printed natural, and its negation. */
  lemma IntPrefixOfNumeral(n: nat)
    ensures HasIntPrefix(NatToDigits(n)) && IntPrefixValue(NatToDigits(n)) == n
    ensures HasIntPrefix("-" + NatToDigits(n)) && IntPrefixValue("-" + NatToDigits(n)) == -(n as int)
  {
    var s := NatToDigits(n);
    DigitsRoundTrip(n);
    DigitRunUpTo(s, 0, |s|);
    assert s[..|s|] == s;
    var t := "-" + s;
    DigitRunUpTo(t, 1, |t|);
    assert t[1..1 + |s|] == s;
  }

  /** line.erase(line.find_last_not_of(" \t\r\n") + 1): trailing blanks removed. */
  function TrimEnd(s: string): (r: string)
    ensures |r| <= |s| && r == s[..|r|]
    ensures |r| > 0 ==> !(r[|r| - 1] in " \t\r\n")
    ensures forall i :: |r| <= i < |s| ==> s[i] in " \t\r\n"
  {
    if |s| == 0 || !(s[|s| - 1] in " \t\r\n") then s else TrimEnd(s[..|s| - 1])
  }

  /** Index of the last occurrence of c in s. */
  function LastIndexOf(s: string, c: char): (r: Option<nat>)
    ensures r.Some? ==> r.value < |s| && s[r.value] == c && forall i :: r.value < i < |s| ==> s[i] != c
    ensures r.None? ==> c !in s
  {
    if |s| == 0 then None
    else if s[|s| - 1] == c then Some(|s| - 1)
    else LastIndexOf(s[..|s| - 1], c)
  }

  /** Index of the last '/' or '\\' in s. */
  function LastSeparator(s: string): (r: Option<nat>)
    ensures r.Some? ==> (r.value < |s| && (s[r.value] == '/' || s[r.value] == '\\')
      && forall i :: r.value < i < |s| ==> s[i] != '/' && s[i] != '\\')
    ensures r.None? ==> '/' !in s && '\\' !in s
  {
    if |s| == 0 then None
    else if s[|s| - 1] == '/' || s[|s| - 1] == '\\' then Some(|s| - 1)
    else LastSeparator(s[..|s| - 1])
  }

  /** getDirectoryFromPath of both loaders: everything up to and including the
      last separator, or "./" when there is none. */
  function DirectoryWithSeparator(path: string): (d: string)
    ensures LastSeparator(path).Some? ==> d == path[..LastSeparator(path).value + 1]
    ensures LastSeparator(path).None? ==> d == "./"
    ensures |d| > 0 && (d[|d| - 1] == '/' || d[|d| - 1] == '\\')
  {
    match LastSeparator(path)
    case Some(i) => path[..i + 1]
    case None => "./"
  }

  /** A file name joined to the directory part is found again as its directory. */
  lemma DirectoryOfJoined(dir: string, name: string)
    requires |dir| > 0 && dir[|dir| - 1] == '/'
    requires '/' !in name && '\\' !in name
    ensures DirectoryWithSeparator(dir + name) == dir
  {
    var p := dir + name;
    LastSeparatorOfJoined(dir, name);
    assert p[..|dir|] == dir;
  }

  lemma {:induction false} LastSeparatorOfJoined(dir: string, name: string)
    requires |dir| > 0 && dir[|dir| - 1] == '/'
    requires '/' !in name && '\\' !in name
    ensures LastSeparator(dir + name) == Some(|dir| - 1)
    decreases |name|
  {
    var p := dir + name;
    if |name| == 0 {
      assert p == dir;
    } else {
      assert p[..|p| - 1] == dir + name[..|name| - 1];
      assert p[|p| - 1] == name[|name| - 1];
      LastSeparatorOfJoined(dir, name[..|name| - 1]);
    }
  }

  /** std::string's operator<= : lexicographic by character code. */
  predicate LexLessEq(a: string, b: string) {
    |a| == 0 || (|b| > 0 && (a[0] < b[0] || (a[0] == b[0] && LexLessEq(a[1..], b[1..]))))
  }

  predicate LexLess(a: string, b: string) {
    LexLessEq(a, b) && a != b
  }

  lemma {:induction false} LexTotal(a: string, b: string)
    ensures LexLessEq(a, b) || LexLessEq(b, a)
  {
    if |a| > 0 && |b| > 0 && a[0] == b[0] {
      LexTotal(a[1..], b[1..]);
    }
  }

  lemma {:induction false} LexAntisymmetric(a: string, b: string)
    requires LexLessEq(a, b) && LexLessEq(b, a)
    ensures a == b
  {
    if |a| > 0 && |b| > 0 {
      LexAntisymmetric(a[1..], b[1..]);
      assert a == [a[0]] + a[1..];
      assert b == [b[0]] + b[1..];
    }
  }

  lemma {:induction false} LexTransitive(a: string, b: string, c: string)
    requires LexLessEq(a, b) && LexLessEq(b, c)
    ensures LexLessEq(a, c)
  {
    if |a| > 0 && |b| > 0 && |c| > 0 && a[0] == b[0] && b[0] == c[0] {
      LexTransitive(a[1..], b[1..], c[1..]);
    }
  }

  /** A finite non-empty set of strings has a least element. */
  lemma {:induction false} LeastExists(s: set<string>) returns (x: string)
    requires s != {}
    ensures x in s && forall y :: y in s ==> LexLessEq(x, y)
    decreases |s|
  {
    var a :| a in s;
    LexReflexive(a);
    if s == {a} {
      return a;
    }
    var m := LeastExists(s - {a});
    LexTotal(a, m);
    if LexLessEq(a, m) {
      forall y | y in s ensures LexLessEq(a, y) {
        if y != a {
          LexTransitive(a, m, y);
        }
      }
      return a;
    }
    return m;
  }

  lemma {:induction false} LexReflexive(a: string)
    ensures LexLessEq(a, a)
  {
    if |a| > 0 {
      LexReflexive(a[1..]);
    }
  }

  /** The least string of a non-empty set. */
  function Least(s: set<string>): (x: string)
    requires s != {}
    ensures x in s && forall y :: y in s ==> LexLessEq(x, y)
  {
    assert exists x :: x in s && forall y :: y in s ==> LexLessEq(x, y) by {
      var w := LeastExists(s);
    }
    forall x, x' | x in s && x' in s && (forall y :: y in s ==> LexLessEq(x, y)) && (forall y :: y in s ==> LexLessEq(x', y))
      ensures x == x'
    {
      LexAntisymmetric(x, x');
    }
    var x :| x in s && forall y :: y in s ==> LexLessEq(x, y);
    x
  }

  predicate StrictlySorted(xs: seq<string>) {
    forall i, j :: 0 <= i < j < |xs| ==> LexLess(xs[i], xs[j])
  }

  /** The keys of a std::map in the order it iterates them: each once, ascending. */
  function SortedStrings(s: set<string>): (xs: seq<string>)
    ensures |xs| == |s|
    ensures forall x :: x in xs <==> x in s
    ensures StrictlySorted(xs)
    decreases |s|
  {
    if s == {} then []
    else
      var m := Least(s);
      var rest := SortedStrings(s - {m});
      forall j | 0 <= j < |rest| ensures LexLess(m, rest[j]) {
        assert rest[j] in rest;
      }
      [m] + rest
  }
}
