/** The few Python `str` operations the core is built from: `isspace`,
    `strip()`, `split(sep)`, `split()` and `sep.join(...)`. A Python string is
    modelled as a sequence of code points. */
module PyText {

  /** The characters for which Python's `str.isspace()` holds; `strip()` and
      `split()` without an argument treat exactly these as whitespace. */
  predicate IsSpace(c: char) {
    var n := c as int;
    (9 <= n <= 13) || (28 <= n <= 32) || n == 0x85 || n == 0xA0 || n == 0x1680
    || (0x2000 <= n <= 0x200A) || n == 0x2028 || n == 0x2029 || n == 0x202F
    || n == 0x205F || n == 0x3000
  }

  predicate AllSpace(s: string) {
    forall k :: 0 <= k < |s| ==> IsSpace(s[k])
  }

  /** `s` with its leading whitespace removed. */
  function TrimStart(s: string): string
  {
    if |s| > 0 && IsSpace(s[0]) then TrimStart(s[1..]) else s
  }

  /** `TrimStart` drops a whitespace prefix and keeps the rest. */
  lemma {:induction false} TrimStartShape(s: string)
    ensures var r := TrimStart(s);
      |r| <= |s| && r == s[|s| - |r|..] && (r == [] || !IsSpace(r[0])) && AllSpace(s[..|s| - |r|])
  {
    if |s| > 0 && IsSpace(s[0]) {
      TrimStartShape(s[1..]);
      var r := TrimStart(s);
      assert s[..|s| - |r|] == [s[0]] + s[1..][..|s| - 1 - |r|];
    }
  }

  /** `s` with its trailing whitespace removed. */
  function TrimEnd(s: string): string
  {
    if |s| > 0 && IsSpace(s[|s| - 1]) then TrimEnd(s[..|s| - 1]) else s
  }

  /** `TrimEnd` drops a whitespace suffix and keeps the rest. */
  lemma {:induction false} TrimEndShape(s: string)
    ensures var r := TrimEnd(s);
      |r| <= |s| && r == s[..|r|] && (r == [] || !IsSpace(r[|r| - 1])) && AllSpace(s[|r|..])
  {
    if |s| > 0 && IsSpace(s[|s| - 1]) {
      var p := s[..|s| - 1];
      TrimEndShape(p);
      var r := TrimEnd(s);
      assert s[|r|..] == p[|r|..] + [s[|s| - 1]];
    }
  }

  /** Python's `s.strip()`. */
  function Strip(s: string): string
  {
    TrimEnd(TrimStart(s))
  }

  /** Number of whitespace characters `strip()` removes at the front. */
  function Lead(s: string): nat
  {
    TrimStartShape(s);
    |s| - |TrimStart(s)|
  }

  /** What `strip()` returns: the slice of `s` between its leading and its
      trailing whitespace, empty exactly when `s` is all whitespace, and
      otherwise starting and ending with a non-whitespace character. */
  lemma StripShape(s: string)
    ensures var r := Strip(s);
      Lead(s) + |r| <= |s| && r == s[Lead(s)..Lead(s) + |r|] &&
      AllSpace(s[..Lead(s)]) && AllSpace(s[Lead(s) + |r|..]) &&
      (r == [] <==> AllSpace(s)) &&
      (r != [] ==> !IsSpace(r[0]) && !IsSpace(r[|r| - 1]))
  {
    var t := TrimStart(s);
    TrimStartShape(s);
    TrimEndShape(t);
    var r := TrimEnd(t);
    assert s[Lead(s) + |r|..] == t[|r|..];
    if r == [] {
      assert s == s[..Lead(s)] + t[|r|..];
    } else {
      assert r[0] == t[0];
    }
  }

  /** A string that neither starts nor ends with whitespace is its own strip. */
  lemma StripKeeps(s: string)
    requires s != [] && !IsSpace(s[0]) && !IsSpace(s[|s| - 1])
    ensures Strip(s) == s
  {
  }

  /** Whatever `strip()` returns is made of characters of its argument. */
  lemma StripSubset(s: string)
    ensures multiset(Strip(s)) <= multiset(s)
  {
    StripShape(s);
    var a := Lead(s);
    var b := a + |Strip(s)|;
    assert s == s[..a] + s[a..b] + s[b..];
  }

  /** Python's `sep.join(xs)`. */
  function Join(xs: seq<string>, sep: string): string
  {
    if |xs| == 0 then ""
    else if |xs| == 1 then xs[0]
    else xs[0] + sep + Join(xs[1..], sep)
  }

  /** Joining two non-empty lists puts one separator between their joins. */
  lemma {:induction false} JoinConcat(a: seq<string>, b: seq<string>, sep: string)
    requires a != [] && b != []
    ensures Join(a + b, sep) == Join(a, sep) + sep + Join(b, sep)
  {
    if |a| == 1 {
      assert (a + b)[1..] == b;
    } else {
      assert (a + b)[1..] == a[1..] + b;
      JoinConcat(a[1..], b, sep);
    }
  }

  /** A join of non-empty strings is non-empty when the list is. */
  lemma JoinNonEmpty(xs: seq<string>, sep: string)
    requires xs != [] && xs[0] != ""
    ensures Join(xs, sep) != ""
  {
  }

  /** The concatenation of a list of lists. */
  function Flatten<T>(xss: seq<seq<T>>): seq<T>
  {
    if xss == [] then [] else xss[0] + Flatten(xss[1..])
  }

  /** The join of each group, in order. */
  function JoinAll(groups: seq<seq<string>>, sep: string): (r: seq<string>)
    ensures |r| == |groups|
    ensures forall i :: 0 <= i < |groups| ==> r[i] == Join(groups[i], sep)
  {
    if groups == [] then [] else [Join(groups[0], sep)] + JoinAll(groups[1..], sep)
  }

  /** Joining the joins of non-empty groups with the same separator is the
      join of all their elements: grouping loses and adds nothing. */
  lemma {:induction false} JoinFlatten(groups: seq<seq<string>>, sep: string)
    requires forall i :: 0 <= i < |groups| ==> groups[i] != []
    ensures Join(JoinAll(groups, sep), sep) == Join(Flatten(groups), sep)
  {
    if |groups| > 1 {
      var rest := groups[1..];
      JoinFlatten(rest, sep);
      FlattenNonEmpty(rest);
      JoinConcat(groups[0], Flatten(rest), sep);
      assert JoinAll(groups, sep)[1..] == JoinAll(rest, sep);
    } else if |groups| == 1 {
      assert groups[1..] == [];
      assert Flatten(groups[1..]) == [];
      assert Flatten(groups) == groups[0] + Flatten(groups[1..]);
      assert JoinAll(groups, sep) == [Join(groups[0], sep)];
      assert Join(JoinAll(groups, sep), sep) == Join(groups[0], sep);
      assert Flatten(groups) == groups[0];
    }
  }

  lemma {:induction false} FlattenNonEmpty<T>(groups: seq<seq<T>>)
    requires groups != [] && groups[0] != []
    ensures Flatten(groups) != []
  {
  }

  /** Python's `s.split(sep)` for a one-character separator: the pieces
      between separators, one more than there are separators. */
  function Split(s: string, sep: char): (r: seq<string>)
    ensures |r| >= 1
  {
    if |s| == 0 then [""]
    else
      var rest := Split(s[1..], sep);
      if s[0] == sep then [""] + rest else [[s[0]] + rest[0]] + rest[1..]
  }

  /** `s.split(sep)` has one piece more than `s` has separators, no piece
      holds the separator, and joining the pieces with it gives `s` back. */
  lemma {:induction false} SplitShape(s: string, sep: char)
    ensures var r := Split(s, sep);
      |r| == multiset(s)[sep] + 1 && (forall i :: 0 <= i < |r| ==> sep !in r[i]) && Join(r, [sep]) == s
  {
    if |s| > 0 {
      SplitShape(s[1..], sep);
      SplitStep(s, sep, Split(s[1..], sep));
    }
  }

  /** One step of `Split`: the first character either starts a new piece (it
      is the separator) or extends the first piece of the rest. */
  lemma SplitStep(s: string, sep: char, rest: seq<string>)
    requires |s| > 0 && rest != []
    requires |rest| == multiset(s[1..])[sep] + 1
    requires forall i :: 0 <= i < |rest| ==> sep !in rest[i]
    requires Join(rest, [sep]) == s[1..]
    ensures var r := if s[0] == sep then [""] + rest else [[s[0]] + rest[0]] + rest[1..];
      |r| == multiset(s)[sep] + 1 && (forall i :: 0 <= i < |r| ==> sep !in r[i]) && Join(r, [sep]) == s
  {
    CountStep(s, sep);
    assert s == [s[0]] + s[1..];
    if s[0] == sep {
      SplitStepAtSep(rest, sep);
    } else {
      SplitStepInPiece(s[0], rest, sep);
    }
  }

  /** The count of `c` in `s` is its count in the tail, plus one for the head. */
  lemma CountStep(s: string, c: char)
    requires |s| > 0
    ensures multiset(s)[c] == multiset(s[1..])[c] + if s[0] == c then 1 else 0
  {
    assert s == [s[0]] + s[1..];
    assert multiset(s) == multiset{s[0]} + multiset(s[1..]);
  }

  /** A leading separator adds an empty piece in front. */
  lemma SplitStepAtSep(rest: seq<string>, sep: char)
    requires rest != []
    requires forall i :: 0 <= i < |rest| ==> sep !in rest[i]
    ensures var r := [""] + rest;
      (forall i :: 0 <= i < |r| ==> sep !in r[i]) && Join(r, [sep]) == [sep] + Join(rest, [sep])
  {
    var r := [""] + rest;
    assert r[1..] == rest;
    forall i | 0 <= i < |r| ensures sep !in r[i] {
      if i > 0 { assert r[i] == rest[i - 1]; }
    }
  }

  /** A leading non-separator joins the first piece. */
  lemma SplitStepInPiece(c: char, rest: seq<string>, sep: char)
    requires rest != [] && c != sep
    requires forall i :: 0 <= i < |rest| ==> sep !in rest[i]
    ensures var r := [[c] + rest[0]] + rest[1..];
      (forall i :: 0 <= i < |r| ==> sep !in r[i]) && Join(r, [sep]) == [c] + Join(rest, [sep])
  {
    JoinCons([c], rest, [sep]);
    var r := [[c] + rest[0]] + rest[1..];
    forall i | 0 <= i < |r| ensures sep !in r[i] {
      if i > 0 { assert r[i] == rest[i]; }
    }
  }

  /** Prefixing the first element prefixes the join. */
  lemma JoinCons(p: string, xs: seq<string>, sep: string)
    requires xs != []
    ensures Join([p + xs[0]] + xs[1..], sep) == p + Join(xs, sep)
  {
    var ys := [p + xs[0]] + xs[1..];
    assert ys[1..] == xs[1..];
  }

  /** Splitting a join of separator-free pieces gives the pieces back. */
  lemma {:induction false} SplitJoin(xs: seq<string>, sep: char)
    requires xs != []
    requires forall i :: 0 <= i < |xs| ==> sep !in xs[i]
    ensures Split(Join(xs, [sep]), sep) == xs
  {
    if |xs| == 1 {
      SplitFree(xs[0], sep);
    } else {
      var tail := Join(xs[1..], [sep]);
      assert Join(xs, [sep]) == xs[0] + [sep] + tail;
      SplitJoin(xs[1..], sep);
      SplitAround(xs[0], tail, sep);
      assert [xs[0]] + xs[1..] == xs;
    }
  }

  /** A string without the separator splits into itself. */
  lemma {:induction false} SplitFree(s: string, sep: char)
    requires sep !in s
    ensures Split(s, sep) == [s]
  {
    if |s| > 0 {
      SplitFree(s[1..], sep);
      assert s == [s[0]] + s[1..];
    }
  }

  /** A separator-free prefix joins onto the first piece of what follows it. */
  lemma {:induction false} SplitAround(a: string, b: string, sep: char)
    requires sep !in a
    ensures Split(a + [sep] + b, sep) == [a] + Split(b, sep)
  {
    var s := a + [sep] + b;
    if |a| == 0 {
      assert s[0] == sep && s[1..] == b;
      SplitUnfold(s, sep);
    } else {
      assert s[0] == a[0] && s[0] != sep;
      assert s[1..] == a[1..] + [sep] + b;
      SplitAround(a[1..], b, sep);
      SplitUnfold(s, sep);
      assert [a[0]] + a[1..] == a;
    }
  }

  /** `Split` on a non-empty string, one step unfolded. */
  lemma SplitUnfold(s: string, sep: char)
    requires |s| > 0
    ensures Split(s, sep) == if s[0] == sep then [""] + Split(s[1..], sep)
                             else [[s[0]] + Split(s[1..], sep)[0]] + Split(s[1..], sep)[1..]
  {
  }

  /** `[p.strip() for p in ps if p.strip()]`: the pieces stripped, the ones
      that were all whitespace dropped, in order. */
  function StrippedNonBlank(ps: seq<string>): seq<string>
  {
    if ps == [] then []
    else
      var s := Strip(ps[|ps| - 1]);
      StrippedNonBlank(ps[..|ps| - 1]) + if s == "" then [] else [s]
  }

  /** Non-empty, with whitespace at neither end: what `strip()` leaves of a
      string that is not all whitespace. */
  predicate Trimmed(e: string) {
    e != "" && !IsSpace(e[0]) && !IsSpace(e[|e| - 1])
  }

  /** Every kept entry is trimmed. */
  lemma {:induction false} StrippedNonBlankShape(ps: seq<string>)
    ensures forall j :: 0 <= j < |StrippedNonBlank(ps)| ==> Trimmed(StrippedNonBlank(ps)[j])
  {
    if ps != [] {
      var p := ps[|ps| - 1];
      StrippedNonBlankShape(ps[..|ps| - 1]);
      StripShape(p);
    }
  }

  /** A character no piece holds is in no entry. */
  lemma {:induction false} StrippedNonBlankFree(ps: seq<string>, c: char)
    requires forall i :: 0 <= i < |ps| ==> c !in ps[i]
    ensures forall j :: 0 <= j < |StrippedNonBlank(ps)| ==> c !in StrippedNonBlank(ps)[j]
  {
    if ps != [] {
      var p := ps[|ps| - 1];
      StrippedNonBlankFree(ps[..|ps| - 1], c);
      StripSubset(p);
      assert multiset(p)[c] == 0;
    }
  }

  /** There is one entry per piece that is not all whitespace. */
  lemma {:induction false} StrippedNonBlankCount(ps: seq<string>)
    ensures |StrippedNonBlank(ps)| == |set i | 0 <= i < |ps| && !AllSpace(ps[i])|
  {
    if ps != [] {
      var n := |ps| - 1;
      var before := set i | 0 <= i < n && !AllSpace(ps[..n][i]);
      var here := set i | 0 <= i < |ps| && !AllSpace(ps[i]);
      StrippedNonBlankCount(ps[..n]);
      StripShape(ps[n]);
      assert before == set i | 0 <= i < n && !AllSpace(ps[i]);
      if AllSpace(ps[n]) {
        assert here == before;
      } else {
        assert here == before + {n};
      }
    }
  }

  /** Nothing is kept exactly when every piece is all whitespace. */
  lemma StrippedNonBlankEmpty(ps: seq<string>)
    ensures StrippedNonBlank(ps) == [] <==> AllBlank(ps)
  {
    StrippedNonBlankCount(ps);
    var kept := set i | 0 <= i < |ps| && !AllSpace(ps[i]);
    if !forall i :: 0 <= i < |ps| ==> AllSpace(ps[i]) {
      var i :| 0 <= i < |ps| && !AllSpace(ps[i]);
      assert i in kept;
    }
  }

  /** Filtering one more piece adds its stripped text, unless it is empty. */
  lemma StrippedNonBlankSnoc(init: seq<string>, p: string)
    ensures StrippedNonBlank(init + [p]) ==
      StrippedNonBlank(init) + if Strip(p) == "" then [] else [Strip(p)]
  {
    assert (init + [p])[..|init|] == init;
  }

  /** Pieces that are already trimmed are kept as they are. */
  lemma {:induction false} StrippedNonBlankKeeps(ps: seq<string>)
    requires forall i :: 0 <= i < |ps| ==> Trimmed(ps[i])
    ensures StrippedNonBlank(ps) == ps
  {
    if ps != [] {
      var n := |ps| - 1;
      var init, p := ps[..n], ps[n];
      assert ps == init + [p];
      forall i | 0 <= i < |init| ensures Trimmed(init[i]) {
        assert init[i] == ps[i];
      }
      StrippedNonBlankKeeps(init);
      StripKeeps(p);
      StrippedNonBlankSnoc(init, p);
    }
  }

  /** Every character is the separator or whitespace. */
  predicate Blank(s: string, sep: char) {
    forall k :: 0 <= k < |s| ==> s[k] == sep || IsSpace(s[k])
  }

  /** Every piece is all whitespace. */
  predicate AllBlank(ps: seq<string>) {
    forall i :: 0 <= i < |ps| ==> AllSpace(ps[i])
  }

  /** Every piece of the split is all whitespace exactly when the string
      holds nothing but separators and whitespace. */
  lemma {:induction false} SplitBlank(s: string, sep: char)
    ensures AllBlank(Split(s, sep)) <==> Blank(s, sep)
  {
    if |s| > 0 {
      var rest := Split(s[1..], sep);
      SplitBlank(s[1..], sep);
      SplitUnfold(s, sep);
      BlankCons(s, sep);
      if s[0] == sep {
        AllBlankCons("", rest);
      } else {
        AllBlankCons([s[0]] + rest[0], rest[1..]);
        AllBlankCons(rest[0], rest[1..]);
        AllSpaceCons(s[0], rest[0]);
        assert [rest[0]] + rest[1..] == rest;
      }
    }
  }

  lemma BlankCons(s: string, sep: char)
    requires |s| > 0
    ensures Blank(s, sep) <==> (s[0] == sep || IsSpace(s[0])) && Blank(s[1..], sep)
  {
    if (s[0] == sep || IsSpace(s[0])) && Blank(s[1..], sep) {
      forall k | 0 <= k < |s| ensures s[k] == sep || IsSpace(s[k]) {
        if k > 0 { assert s[k] == s[1..][k - 1]; }
      }
    }
  }

  lemma AllSpaceCons(c: char, t: string)
    ensures AllSpace([c] + t) <==> IsSpace(c) && AllSpace(t)
  {
    var s := [c] + t;
    if AllSpace(s) {
      assert IsSpace(s[0]);
      forall k | 0 <= k < |t| ensures IsSpace(t[k]) {
        assert t[k] == s[k + 1];
      }
    }
    if IsSpace(c) && AllSpace(t) {
      forall k | 0 <= k < |s| ensures IsSpace(s[k]) {
        if k > 0 { assert s[k] == t[k - 1]; }
      }
    }
  }

  lemma AllBlankCons(p: string, ps: seq<string>)
    ensures AllBlank([p] + ps) <==> AllSpace(p) && AllBlank(ps)
  {
    var r := [p] + ps;
    if AllBlank(r) {
      assert AllSpace(r[0]);
      forall i | 0 <= i < |ps| ensures AllSpace(ps[i]) {
        assert ps[i] == r[i + 1];
      }
    }
    if AllSpace(p) && AllBlank(ps) {
      forall i | 0 <= i < |r| ensures AllSpace(r[i]) {
        if i > 0 { assert r[i] == ps[i - 1]; }
      }
    }
  }

  /** Stripping neither adds nor removes non-blank characters. */
  lemma StripBlank(s: string, sep: char)
    ensures Blank(Strip(s), sep) <==> Blank(s, sep)
  {
    StripShape(s);
    var a := Lead(s);
    var b := a + |Strip(s)|;
    if Blank(Strip(s), sep) {
      forall k | 0 <= k < |s| ensures s[k] == sep || IsSpace(s[k]) {
        if k < a {
          assert s[..a][k] == s[k];
        } else if k < b {
          assert Strip(s)[k - a] == s[k];
        } else {
          assert s[b..][k - b] == s[k];
        }
      }
    }
  }

  /** A join of non-empty pieces starts with the first piece's first
      character and ends with the last piece's last character. */
  lemma {:induction false} JoinEnds(xs: seq<string>, sep: string)
    requires xs != [] && forall i :: 0 <= i < |xs| ==> xs[i] != ""
    ensures var j := Join(xs, sep);
      j != "" && j[0] == xs[0][0] && j[|j| - 1] == xs[|xs| - 1][|xs[|xs| - 1]| - 1]
  {
    if |xs| > 1 {
      JoinEnds(xs[1..], sep);
      var tail := Join(xs[1..], sep);
      assert Join(xs, sep) == (xs[0] + sep) + tail;
    }
  }

  /** Python's `len(s.split())`: the number of maximal runs of
      non-whitespace characters, counted at the character that starts each. */
  function WordCount(s: string): nat
  {
    if |s| == 0 then 0
    else
      var last := |s| - 1;
      WordCount(s[..last]) + if !IsSpace(s[last]) && (last == 0 || IsSpace(s[last - 1])) then 1 else 0
  }

  /** A space between two strings keeps their words apart: the words of
      the whole are those of each side. */
  lemma {:induction false} WordCountSpaced(a: string, b: string)
    ensures WordCount(a + " " + b) == WordCount(a) + WordCount(b)
    decreases |b|
  {
    var s := a + " " + b;
    var last := |s| - 1;
    if b == [] {
      assert s[..last] == a;
    } else {
      var init := b[..|b| - 1];
      assert s[..last] == a + " " + init;
      WordCountSpaced(a, init);
      assert s[last] == b[|b| - 1];
      if |b| > 1 {
        assert s[last - 1] == b[|b| - 2];
      } else {
        assert s[last - 1] == ' ';
      }
    }
  }

  /** A string holding a non-whitespace character has at least one word. */
  lemma {:induction false} WordCountOfNonBlank(s: string, k: nat)
    requires k < |s| && !IsSpace(s[k])
    ensures WordCount(s) >= 1
  {
    var last := |s| - 1;
    if k < last {
      assert s[..last][k] == s[k];
      WordCountOfNonBlank(s[..last], k);
    } else if last > 0 && !IsSpace(s[last - 1]) {
      assert s[..last][last - 1] == s[last - 1];
      WordCountOfNonBlank(s[..last], last - 1);
    }
  }

  // ---------------------------------------------------------------------
  // Integers as text

  /** The decimal digit character of `d`. */
  function DigitChar(d: nat): char
    requires d < 10
  {
    ('0' as int + d) as char
  }

  /** The decimal digits of `n`, most significant first, with no leading
      zero. */
  function Digits(n: nat): (r: string)
    ensures r != [] && (n > 0 ==> r[0] != '0')
    ensures forall i :: 0 <= i < |r| ==> '0' <= r[i] <= '9'
  {
    if n < 10 then [DigitChar(n)] else Digits(n / 10) + [DigitChar(n % 10)]
  }

  /** `str(n)`. */
  function IntText(n: int): string
  {
    if n < 0 then "-" + Digits(-n) else Digits(n)
  }

  /** The value of a string of decimal digits. */
  function DigitsValue(s: string): int
  {
    if s == [] then 0 else DigitsValue(s[..|s| - 1]) * 10 + (s[|s| - 1] as int - '0' as int)
  }

  /** `int(s)` for an optional minus sign followed by decimal digits. */
  function ParseInt(s: string): int
  {
    if s != [] && s[0] == '-' then -DigitsValue(s[1..]) else DigitsValue(s)
  }

  lemma {:induction false} DigitsValueOf(n: nat)
    ensures DigitsValue(Digits(n)) == n
  {
    if n >= 10 {
      DigitsValueOf(n / 10);
      var s := Digits(n);
      assert s[..|s| - 1] == Digits(n / 10);
    }
  }

  /** `int(str(n)) == n`, and the text starts with a minus sign exactly for
      a negative `n`. */
  lemma IntTextRoundTrip(n: int)
    ensures ParseInt(IntText(n)) == n
    ensures IntText(n) != [] && (IntText(n)[0] == '-' <==> n < 0)
  {
    if n < 0 {
      DigitsValueOf(-n);
      assert ("-" + Digits(-n))[1..] == Digits(-n);
    } else {
      DigitsValueOf(n);
    }
  }
}
