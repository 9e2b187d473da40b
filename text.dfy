/** The JavaScript string operations the download controller relies on:
    `indexOf`, `replace` of a string pattern, `trim`, `split` and `filter(Boolean)`,
    the final path segment that `path.basename` gives, and the decimal rendering of
    a number inside a template literal. */
module Text {
  import opened Wrappers
  import opened Chars

  /** `s.indexOf(c)`: the first position of c, or None for -1. */
  function IndexOf(s: string, c: char): (r: Option<nat>)
    ensures r.Some? ==> r.value < |s| && s[r.value] == c && c !in s[..r.value]
    ensures r.None? ==> c !in s
  {
    if s == [] then None
    else if s[0] == c then Some(0)
    else
      match IndexOf(s[1..], c)
      case None => None
      case Some(k) =>
        assert s[..k + 1] == [s[0]] + s[1..][..k];
        Some(k + 1)
  }

  /** `s.replace(c, '')` with a one-character string pattern: only the FIRST
      occurrence is removed. */
  function RemoveFirst(s: string, c: char): (r: string)
    ensures c !in s ==> r == s
    ensures c in s ==> |r| == |s| - 1
  {
    if s == [] then []
    else if s[0] == c then s[1..]
    else [s[0]] + RemoveFirst(s[1..], c)
  }

  /** What is removed is the first occurrence that `indexOf` finds. */
  lemma {:induction false} RemoveFirstAt(s: string, c: char)
    ensures IndexOf(s, c).None? ==> RemoveFirst(s, c) == s
    ensures IndexOf(s, c).Some? ==>
      var k := IndexOf(s, c).value; RemoveFirst(s, c) == s[..k] + s[k + 1..]
  {
    if s != [] && s[0] != c {
      RemoveFirstAt(s[1..], c);
      if IndexOf(s[1..], c).Some? {
        var k := IndexOf(s[1..], c).value;
        assert s[..k + 1] == [s[0]] + s[1..][..k];
        assert s[k + 2..] == s[1..][k + 1..];
      }
    }
  }

  /** Removing a character from whitespace leaves whitespace. */
  lemma RemoveFirstBlank(s: string, c: char)
    requires AllIn(s, 0, |s|, Space)
    ensures AllIn(RemoveFirst(s, c), 0, |RemoveFirst(s, c)|, Space)
  {
    RemoveFirstAt(s, c);
  }

  /** s[i..j] is what trimming leaves of s: everything outside it is whitespace and it
      neither starts nor ends with whitespace. */
  predicate IsTrimOf(s: string, i: nat, j: nat) {
    i <= j <= |s| && AllIn(s, 0, i, Space) && AllIn(s, j, |s|, Space)
    && (i < j ==> !IsSpace(s[i]) && !IsSpace(s[j - 1]))
  }

  /** The greatest j' in [lo, j] such that s[j'..j] is whitespace and s[j'-1] is not. */
  function TrailStart(s: string, lo: nat, j: nat): (r: nat)
    requires lo <= j <= |s|
    ensures lo <= r <= j && AllIn(s, r, j, Space)
    ensures r == lo || !IsSpace(s[r - 1])
    decreases j
  {
    if j == lo || !IsSpace(s[j - 1]) then j else TrailStart(s, lo, j - 1)
  }

  /** `s.trim()`. */
  function Trim(s: string): (r: string)
    ensures |r| <= |s|
    ensures r == [] || (!IsSpace(r[0]) && !IsSpace(r[|r| - 1]))
  {
    var i := RunEnd(s, 0, Space);
    s[i..TrailStart(s, i, |s|)]
  }

  /** What `trim` leaves is a cut of s with only whitespace outside it and none at its
      ends. */
  lemma TrimIsCut(s: string)
    ensures exists i: nat, j: nat :: IsTrimOf(s, i, j) && Trim(s) == s[i..j]
  {
    var i := RunEnd(s, 0, Space);
    var j := TrailStart(s, i, |s|);
    assert IsTrimOf(s, i, j);
  }

  /** Trimming is determined by its characterisation: any cut that leaves only
      whitespace outside and none at the ends is what `Trim` returns. */
  lemma TrimUnique(s: string, i: nat, j: nat)
    requires IsTrimOf(s, i, j)
    ensures Trim(s) == s[i..j]
  {
    var i0 := RunEnd(s, 0, Space);
    var j0 := TrailStart(s, i0, |s|);
    if i < j {
      RunEndUnique(s, 0, i, Space);
      assert i0 == i;
    } else {
      // s is entirely whitespace
      assert AllIn(s, 0, |s|, Space) by {
        forall m | 0 <= m < |s| ensures IsSpace(s[m]) {
          if m < i { } else { }
        }
      }
      RunEndUnique(s, 0, |s|, Space);
    }
  }

  /** Trimming whitespace leaves the empty string. */
  lemma TrimBlank(s: string)
    requires AllIn(s, 0, |s|, Space)
    ensures Trim(s) == []
  {
    TrimUnique(s, |s|, |s|);
  }

  /** Trimming twice is trimming once. */
  lemma TrimIdempotent(s: string)
    ensures Trim(Trim(s)) == Trim(s)
  {
    var t := Trim(s);
    assert IsTrimOf(t, 0, |t|);
    TrimUnique(t, 0, |t|);
  }

  /** The inverse of `split`: the pieces with sep between consecutive ones. */
  function Join(pieces: seq<string>, sep: char): string
    requires |pieces| >= 1
  {
    if |pieces| == 1 then pieces[0] else pieces[0] + [sep] + Join(pieces[1..], sep)
  }

  /** `s.split(sep)` with a one-character separator. The empty string splits into
      one empty piece, and a trailing separator leaves an empty last piece. */
  function Split(s: string, sep: char): (r: seq<string>)
    ensures |r| >= 1
    ensures forall k :: 0 <= k < |r| ==> sep !in r[k]
    ensures Join(r, sep) == s
    decreases |s|
  {
    match IndexOf(s, sep)
    case None => [s]
    case Some(k) =>
      var rest := Split(s[k + 1..], sep);
      assert s == s[..k] + [sep] + s[k + 1..];
      [s[..k]] + rest
  }

  /** Splitting undoes joining separator-free pieces. */
  lemma {:induction false} SplitJoin(pieces: seq<string>, sep: char)
    requires |pieces| >= 1
    requires forall k :: 0 <= k < |pieces| ==> sep !in pieces[k]
    ensures Split(Join(pieces, sep), sep) == pieces
  {
    if |pieces| > 1 {
      var s := Join(pieces, sep);
      var rest := Join(pieces[1..], sep);
      assert s == pieces[0] + [sep] + rest;
      assert s[|pieces[0]|] == sep;
      assert s[..|pieces[0]|] == pieces[0];
      assert IndexOf(s, sep) == Some(|pieces[0]|);
      assert s[|pieces[0]| + 1..] == rest;
      SplitJoin(pieces[1..], sep);
    } else {
      assert IndexOf(pieces[0], sep) == None;
    }
  }

  /** `pieces.filter(Boolean)` on strings: drops the empty strings, keeps order. */
  function NonEmpty(pieces: seq<string>): (r: seq<string>)
    ensures |r| <= |pieces|
    ensures forall k :: 0 <= k < |r| ==> r[k] != [] && r[k] in pieces
    ensures forall x :: x in pieces && x != [] ==> x in r
  {
    if pieces == [] then []
    else if pieces[0] == [] then NonEmpty(pieces[1..])
    else [pieces[0]] + NonEmpty(pieces[1..])
  }

  /** The filter keeps order and duplicates: it works piece by piece. */
  lemma {:induction false} NonEmptyAppend(a: seq<string>, b: seq<string>)
    ensures NonEmpty(a + b) == NonEmpty(a) + NonEmpty(b)
  {
    if a == [] {
      assert a + b == b;
    } else {
      assert (a + b)[0] == a[0];
      assert (a + b)[1..] == a[1..] + b;
      NonEmptyAppend(a[1..], b);
    }
  }

  lemma NonEmptySingle(x: string)
    ensures NonEmpty([x]) == if x == [] then [] else [x]
  {
    assert [x][1..] == [];
  }

  /** The final path segment: everything after the last '/'. */
  function Basename(path: string): (r: string)
    ensures '/' !in r
    ensures |r| <= |path| && r == path[|path| - |r|..]
    ensures |r| == |path| || path[|path| - |r| - 1] == '/'
  {
    if path == [] then []
    else if path[|path| - 1] == '/' then []
    else Basename(path[..|path| - 1]) + [path[|path| - 1]]
  }

  /** Cutting at the first separator: `a + sep + b` determines a and b when a holds no
      separator. */
  lemma SplitAtSeparator(a: string, b: string, c: string, d: string, sep: char)
    requires sep !in a && sep !in c
    requires a + [sep] + b == c + [sep] + d
    ensures a == c && b == d
  {
    var s := a + [sep] + b;
    FirstSeparator(a, b, sep);
    FirstSeparator(c, d, sep);
    assert a == s[..|a|] && c == s[..|c|];
    assert b == s[|a| + 1..] && d == s[|c| + 1..];
  }

  lemma FirstSeparator(a: string, b: string, sep: char)
    requires sep !in a
    ensures IndexOf(a + [sep] + b, sep) == Some(|a|)
  {
    var s := a + [sep] + b;
    assert s[..|a|] == a;
    assert s[|a|] == sep;
  }

  /** The final segment of `dir/name` is `name` when `name` holds no separator. */
  lemma {:induction false} BasenameAfterSlash(dir: string, name: string)
    requires '/' !in name
    ensures Basename(dir + "/" + name) == name
    decreases |name|
  {
    var path := dir + "/" + name;
    if name == [] {
      assert path[|path| - 1] == '/';
    } else {
      var init := name[..|name| - 1];
      assert path[..|path| - 1] == dir + "/" + init;
      assert path[|path| - 1] == name[|name| - 1];
      BasenameAfterSlash(dir, init);
      assert init + [name[|name| - 1]] == name;
    }
  }

  function DigitChar(d: nat): (c: char)
    requires d < 10
    ensures IsDigit(c)
  {
    ('0' as int + d) as char
  }

  function DigitValue(c: char): nat
    requires IsDigit(c)
  {
    (c as int - '0' as int) as nat
  }

  /** The value of a string of decimal digits. */
  function ParseDecimal(s: string): nat
    requires forall k :: 0 <= k < |s| ==> IsDigit(s[k])
  {
    if s == [] then 0 else ParseDecimal(s[..|s| - 1]) * 10 + DigitValue(s[|s| - 1])
  }

  /** `${n}` for a non-negative integer n: its decimal digits, no leading zero. */
  function DecimalString(n: nat): (r: string)
    ensures |r| >= 1 && (forall k :: 0 <= k < |r| ==> IsDigit(r[k]))
    ensures r[0] == '0' ==> n == 0 && r == "0"
    ensures ParseDecimal(r) == n
    decreases n
  {
    if n < 10 then [DigitChar(n)]
    else
      var r := DecimalString(n / 10) + [DigitChar(n % 10)];
      assert r[..|r| - 1] == DecimalString(n / 10);
      r
  }

  /** Distinct numbers render as distinct strings. */
  lemma DecimalStringInjective(m: nat, n: nat)
    requires DecimalString(m) == DecimalString(n)
    ensures m == n
  {
    assert ParseDecimal(DecimalString(m)) == m;
  }
}
