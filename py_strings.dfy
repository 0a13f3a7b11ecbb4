/**
 * The parts of Python's `str` that the prompt pipeline relies on:
 * `sep.join(parts)`, `s.split(sep)` with a non-empty separator,
 * `s.strip()` with no argument, and `str.isspace` on one character.
 */
module PyStrings {

  /** `c.isspace()`: the characters Python treats as whitespace. */
  predicate IsSpace(c: char) {
    || '\t' <= c <= '\r'
    || '\U{1C}' <= c <= '\U{1F}'
    || c == ' '
    || c == '\U{85}'
    || c == '\U{A0}'
    || c == '\U{1680}'
    || '\U{2000}' <= c <= '\U{200A}'
    || c == '\U{2028}'
    || c == '\U{2029}'
    || c == '\U{202F}'
    || c == '\U{205F}'
    || c == '\U{3000}'
  }

  predicate AllSpace(s: string) {
    forall k :: 0 <= k < |s| ==> IsSpace(s[k])
  }

  // ---------------------------------------------------------------------------
  // join and split

  /** `sep.join(parts)`. */
  function Join(parts: seq<string>, sep: string): string {
    if |parts| == 0 then ""
    else if |parts| == 1 then parts[0]
    else parts[0] + sep + Join(parts[1..], sep)
  }

  /** `sep in s` for a non-empty separator: `sep` occurs somewhere in `s`. */
  predicate Contains(s: string, sep: string)
    decreases |s|
  {
    |sep| <= |s| && (s[..|sep|] == sep || Contains(s[1..], sep))
  }

  /**
   * `s.split(sep)`: cut at every occurrence of `sep`, scanning left to right
   * and never reusing characters of an occurrence. Python always returns at
   * least one part (`"".split(", ") == [""]`).
   */
  function Split(s: string, sep: string): (parts: seq<string>)
    requires sep != []
    ensures |parts| >= 1
    decreases |s|
  {
    if |s| < |sep| then [s]
    else if s[..|sep|] == sep then [""] + Split(s[|sep|..], sep)
    else
      var rest := Split(s[1..], sep);
      [[s[0]] + rest[0]] + rest[1..]
  }

  /**
   * No proper suffix of `sep` is also a prefix of it, so an occurrence can
   * never begin inside a part and end inside the following separator.
   * Both ", " and "\n" have this property; " | " does not.
   */
  predicate Unbordered(sep: string) {
    forall m :: 0 < m < |sep| ==> sep[m..] != sep[..|sep| - m]
  }

  /** The split/join round trip: `sep.join(s.split(sep)) == s` for every `s`. */
  lemma {:induction false} JoinSplit(s: string, sep: string)
    requires sep != []
    ensures Join(Split(s, sep), sep) == s
    decreases |s|
  {
    if |s| < |sep| {
      assert Split(s, sep) == [s];
    } else if s[..|sep|] == sep {
      var rest := Split(s[|sep|..], sep);
      assert Split(s, sep) == [""] + rest;
      JoinSplit(s[|sep|..], sep);
      JoinCons("", rest, sep);
      assert s == "" + sep + s[|sep|..];
    } else {
      var rest := Split(s[1..], sep);
      assert Split(s, sep) == [[s[0]] + rest[0]] + rest[1..];
      JoinSplit(s[1..], sep);
      JoinConsHead(s[0], rest, sep);
      assert s == [s[0]] + s[1..];
    }
  }

  /** Joining a part in front of at least one more puts a separator between them. */
  lemma JoinCons(x: string, rest: seq<string>, sep: string)
    requires rest != []
    ensures Join([x] + rest, sep) == x + sep + Join(rest, sep)
  {
    assert ([x] + rest)[1..] == rest;
  }

  /** Putting a character in front of the first part puts it in front of the joined string. */
  lemma JoinConsHead(c: char, parts: seq<string>, sep: string)
    requires parts != []
    ensures Join([[c] + parts[0]] + parts[1..], sep) == [c] + Join(parts, sep)
  {
    var moved := [[c] + parts[0]] + parts[1..];
    if |parts| > 1 {
      assert moved[1..] == parts[1..];
      assert Join(moved, sep) == ([c] + parts[0]) + sep + Join(parts[1..], sep);
    }
  }

  /** The first part `split` returns is a prefix of the string. */
  lemma {:induction false} SplitHead(s: string, sep: string)
    requires sep != []
    ensures Split(s, sep)[0] <= s
    decreases |s|
  {
    if |s| >= |sep| && s[..|sep|] != sep {
      SplitHead(s[1..], sep);
      assert s == [s[0]] + s[1..];
    }
  }

  /** No part that `split` returns contains the separator. */
  lemma {:induction false} SplitPartsAreFree(s: string, sep: string)
    requires sep != []
    ensures forall i :: 0 <= i < |Split(s, sep)| ==> !Contains(Split(s, sep)[i], sep)
    decreases |s|
  {
    var parts := Split(s, sep);
    if |s| < |sep| {
    } else if s[..|sep|] == sep {
      SplitPartsAreFree(s[|sep|..], sep);
      assert !Contains("", sep);
      forall i | 1 <= i < |parts| ensures !Contains(parts[i], sep) {
        assert parts[i] == Split(s[|sep|..], sep)[i - 1];
      }
    } else {
      var rest := Split(s[1..], sep);
      SplitPartsAreFree(s[1..], sep);
      SplitHead(s, sep);
      var first := [s[0]] + rest[0];
      assert first == parts[0];
      if |sep| <= |first| {
        assert first[..|sep|] == s[..|sep|];
      }
      assert first[1..] == rest[0];
      assert !Contains(first, sep);
      forall i | 1 <= i < |parts| ensures !Contains(parts[i], sep) {
        assert parts[i] == rest[i];
      }
    }
  }

  /** A string without the separator splits into itself alone. */
  lemma {:induction false} SplitFree(p: string, sep: string)
    requires sep != [] && !Contains(p, sep)
    ensures Split(p, sep) == [p]
    decreases |p|
  {
    if |p| >= |sep| {
      SplitFree(p[1..], sep);
      assert [p[0]] + p[1..] == p;
    }
  }

  /** Splitting `p + sep + t`, where `p` is free of `sep`, cuts exactly after `p`. */
  lemma {:induction false} SplitAfterFree(p: string, t: string, sep: string)
    requires sep != [] && Unbordered(sep) && !Contains(p, sep)
    ensures Split(p + sep + t, sep) == [p] + Split(t, sep)
    decreases |p|
  {
    var s := p + sep + t;
    if p == [] {
      assert s[..|sep|] == sep;
      assert s[|sep|..] == t;
    } else {
      assert s[..|sep|] != sep by {
        if |p| >= |sep| {
          assert s[..|sep|] == p[..|sep|];
        } else {
          var m := |p|;
          assert s[m..|sep|] == sep[..|sep| - m];
          assert sep[m..] != sep[..|sep| - m];
          assert s[..|sep|][m..] == s[m..|sep|];
        }
      }
      assert !Contains(p[1..], sep);
      assert s[1..] == p[1..] + sep + t;
      SplitAfterFree(p[1..], t, sep);
      assert [p[0]] + p[1..] == p;
    }
  }

  /** The other round trip: parts free of an unbordered separator come back from `split`. */
  lemma {:induction false} SplitJoin(parts: seq<string>, sep: string)
    requires sep != [] && Unbordered(sep) && |parts| >= 1
    requires forall i :: 0 <= i < |parts| ==> !Contains(parts[i], sep)
    ensures Split(Join(parts, sep), sep) == parts
    decreases |parts|
  {
    if |parts| == 1 {
      SplitFree(parts[0], sep);
    } else {
      SplitJoin(parts[1..], sep);
      SplitAfterFree(parts[0], Join(parts[1..], sep), sep);
      assert [parts[0]] + parts[1..] == parts;
    }
  }

  /** A string made of characters that are not `sep[0]`, put in front of a free string, stays free. */
  lemma {:induction false} PrefixKeepsFree(q: string, p: string, sep: string)
    requires sep != [] && !Contains(p, sep)
    requires forall k :: 0 <= k < |q| ==> q[k] != sep[0]
    ensures !Contains(q + p, sep)
    decreases |q|
  {
    if q != [] {
      PrefixKeepsFree(q[1..], p, sep);
      var s := q + p;
      assert s[1..] == q[1..] + p;
      if |sep| <= |s| {
        assert s[..|sep|][0] == q[0] != sep[0];
      }
    } else {
      assert q + p == p;
    }
  }

  /** Replacing part `i` by `x` changes the joined length by `|x| - |parts[i]|`. */
  lemma {:induction false} JoinReplacePart(parts: seq<string>, i: nat, x: string, sep: string)
    requires i < |parts|
    ensures |Join(parts[i := x], sep)| == |Join(parts, sep)| + |x| - |parts[i]|
    decreases |parts|
  {
    if |parts| > 1 {
      var updated := parts[i := x];
      if i == 0 {
        assert updated[1..] == parts[1..];
      } else {
        JoinReplacePart(parts[1..], i - 1, x, sep);
        assert updated[1..] == parts[1..][i - 1 := x];
      }
    }
  }

  /** For a one-character separator, containing it is containing that character. */
  lemma {:induction false} ContainsChar(s: string, c: char)
    ensures Contains(s, [c]) <==> c in s
    decreases |s|
  {
    if s != [] {
      ContainsChar(s[1..], c);
      assert s == [s[0]] + s[1..];
    }
  }

  // ---------------------------------------------------------------------------
  // text written line by line

  /** What a loop of `f.write(x + "\n")` over `xs` leaves in a file. */
  function Lines(xs: seq<string>): string {
    if xs == [] then "" else Lines(xs[..|xs| - 1]) + xs[|xs| - 1] + "\n"
  }

  /** Writing one more line appends it and its newline. */
  lemma LinesSnoc(xs: seq<string>, x: string)
    ensures Lines(xs + [x]) == Lines(xs) + x + "\n"
  {
    assert (xs + [x])[..|xs|] == xs;
  }

  lemma {:induction false} JoinSnoc(xs: seq<string>, x: string, sep: string)
    requires xs != []
    ensures Join(xs + [x], sep) == Join(xs, sep) + sep + x
    decreases |xs|
  {
    if |xs| == 1 {
      assert xs + [x] == [xs[0], x];
    } else {
      JoinSnoc(xs[1..], x, sep);
      assert (xs + [x])[1..] == xs[1..] + [x];
    }
  }

  lemma {:induction false} LinesAsJoin(xs: seq<string>)
    ensures Lines(xs) == Join(xs + [""], "\n")
    decreases |xs|
  {
    if xs != [] {
      var init := xs[..|xs| - 1];
      var x := xs[|xs| - 1];
      LinesAsJoin(init);
      assert xs == init + [x];
      assert xs + [""] == (init + [x]) + [""];
      JoinSnoc(init + [x], "", "\n");
      if init != [] {
        JoinSnoc(init, x, "\n");
        JoinSnoc(init, "", "\n");
      }
    }
  }

  /**
   * Reading back text written line by line: when no written string holds a
   * newline, splitting the text on "\n" gives the strings back, followed by
   * the empty remainder after the last newline.
   */
  lemma {:induction false} LinesSplit(xs: seq<string>)
    requires forall i :: 0 <= i < |xs| ==> '\n' !in xs[i]
    ensures Split(Lines(xs), "\n") == xs + [""]
  {
    LinesAsJoin(xs);
    var parts := xs + [""];
    forall i | 0 <= i < |parts| ensures !Contains(parts[i], "\n") {
      ContainsChar(parts[i], '\n');
    }
    SplitJoin(parts, "\n");
  }

  // ---------------------------------------------------------------------------
  // strip

  /** `s.lstrip()`. */
  function TrimStart(s: string): string
    decreases |s|
  {
    if |s| > 0 && IsSpace(s[0]) then TrimStart(s[1..]) else s
  }

  /** `s.rstrip()`. */
  function TrimEnd(s: string): string
    decreases |s|
  {
    if |s| > 0 && IsSpace(s[|s| - 1]) then TrimEnd(s[..|s| - 1]) else s
  }

  /** `s.strip()`. */
  function Strip(s: string): string
  {
    TrimEnd(TrimStart(s))
  }

  /** `lstrip` removes a whitespace prefix, and the longest one. */
  lemma {:induction false} TrimStartSpec(s: string)
    ensures var r := TrimStart(s);
            && |r| <= |s| && r == s[|s| - |r|..]
            && AllSpace(s[..|s| - |r|])
            && (r == [] || !IsSpace(r[0]))
    decreases |s|
  {
    if |s| > 0 && IsSpace(s[0]) {
      var t := s[1..];
      TrimStartSpec(t);
      var r := TrimStart(t);
      var n := |t| - |r|;
      assert t[n..] == s[n + 1..];
      assert s[..n + 1] == [s[0]] + t[..n];
      AllSpaceCons(s[0], t[..n]);
    } else {
      assert s[..0] == [];
    }
  }

  /** `rstrip` removes a whitespace suffix, and the longest one. */
  lemma {:induction false} TrimEndSpec(s: string)
    ensures var r := TrimEnd(s);
            && |r| <= |s| && r == s[..|r|]
            && AllSpace(s[|r|..])
            && (r == [] || !IsSpace(r[|r| - 1]))
    decreases |s|
  {
    if |s| > 0 && IsSpace(s[|s| - 1]) {
      var init := s[..|s| - 1];
      TrimEndSpec(init);
      var r := TrimEnd(init);
      assert init[..|r|] == s[..|r|];
      assert s[|r|..] == init[|r|..] + [s[|s| - 1]];
      AllSpaceSnoc(init[|r|..], s[|s| - 1]);
    } else {
      assert s[..|s|] == s && s[|s|..] == [];
    }
  }

  /** A space in front of spaces gives spaces. */
  lemma AllSpaceCons(c: char, t: string)
    requires IsSpace(c) && AllSpace(t)
    ensures AllSpace([c] + t)
  {
    var u := [c] + t;
    forall k | 0 <= k < |u| ensures IsSpace(u[k]) {
      if k > 0 {
        assert u[k] == t[k - 1];
      }
    }
  }

  /** Spaces followed by a space give spaces. */
  lemma AllSpaceSnoc(t: string, c: char)
    requires AllSpace(t) && IsSpace(c)
    ensures AllSpace(t + [c])
  {
    var u := t + [c];
    forall k | 0 <= k < |u| ensures IsSpace(u[k]) {
      if k < |t| {
        assert u[k] == t[k];
      }
    }
  }

  /** `rstrip` keeps every character up to the last non-space one. */
  lemma {:induction false} TrimEndKeeps(s: string, k: nat)
    requires k < |s| && !IsSpace(s[k])
    ensures k < |TrimEnd(s)| && TrimEnd(s)[k] == s[k]
    decreases |s|
  {
    if |s| > 0 && IsSpace(s[|s| - 1]) {
      TrimEndKeeps(s[..|s| - 1], k);
    }
  }

  /** The result of `strip` neither starts nor ends with whitespace. */
  lemma StripEnds(s: string)
    ensures var r := Strip(s);
            r == [] || (!IsSpace(r[0]) && !IsSpace(r[|r| - 1]))
  {
    var t := TrimStart(s);
    TrimStartSpec(s);
    TrimEndSpec(t);
    var r := TrimEnd(t);
    assert r != [] ==> r[0] == t[0];
  }

  /** `strip` leaves a string alone exactly when it has no whitespace at either end. */
  lemma StripFixpoint(s: string)
    ensures Strip(s) == s <==> (s == [] || (!IsSpace(s[0]) && !IsSpace(s[|s| - 1])))
  {
    StripEnds(s);
    TrimStartSpec(s);
    TrimEndSpec(TrimStart(s));
  }

  /** Everything `strip` removes is whitespace, and it removes all of it from a blank string. */
  lemma StripBlank(s: string)
    ensures Strip(s) == [] <==> AllSpace(s)
  {
    var t := TrimStart(s);
    TrimStartSpec(s);
    TrimEndSpec(t);
    assert t != [] ==> t[0] == s[|s| - |t|];
    assert TrimEnd(t) == [] ==> t[0..] == t;
    assert t == [] ==> s[..|s| - |t|] == s;
  }

  /** Stripping a blank prefix in front of a visible character leaves only the right strip to do. */
  lemma {:induction false} StripAfterBlank(blank: string, x: string)
    requires AllSpace(blank) && x != [] && !IsSpace(x[0])
    ensures Strip(blank + x) == TrimEnd(x)
    decreases |blank|
  {
    if blank == [] {
      assert blank + x == x;
    } else {
      assert (blank + x)[1..] == blank[1..] + x;
      StripAfterBlank(blank[1..], x);
    }
  }

  /** Right-stripping a string whose tail holds a non-space character keeps the head intact. */
  lemma {:induction false} TrimEndAppend(a: string, c: string)
    requires !AllSpace(c)
    ensures TrimEnd(a + c) == a + TrimEnd(c)
    decreases |c|
  {
    if IsSpace(c[|c| - 1]) {
      var c' := c[..|c| - 1];
      assert !AllSpace(c') by {
        var k :| 0 <= k < |c| && !IsSpace(c[k]);
        assert k < |c| - 1;
        assert c'[k] == c[k];
      }
      assert (a + c)[..|a + c| - 1] == a + c';
      TrimEndAppend(a, c');
    }
  }

  /** Right-stripping past a blank tail. */
  lemma {:induction false} TrimEndBlankTail(a: string, c: string)
    requires AllSpace(c)
    ensures TrimEnd(a + c) == TrimEnd(a)
    decreases |c|
  {
    if c == [] {
      assert a + c == a;
    } else {
      assert (a + c)[..|a + c| - 1] == a + c[..|c| - 1];
      TrimEndBlankTail(a, c[..|c| - 1]);
    }
  }

  /** Left-stripping a string whose head holds a non-space character keeps the tail intact. */
  lemma {:induction false} TrimStartAppend(a: string, c: string)
    requires !AllSpace(a)
    ensures TrimStart(a + c) == TrimStart(a) + c
    decreases |a|
  {
    if IsSpace(a[0]) {
      var a' := a[1..];
      assert !AllSpace(a') by {
        var k :| 0 <= k < |a| && !IsSpace(a[k]);
        assert k > 0 && a'[k - 1] == a[k];
      }
      assert (a + c)[1..] == a' + c;
      TrimStartAppend(a', c);
    }
  }

  /** Left-stripping past a blank head. */
  lemma {:induction false} TrimStartBlankHead(a: string, c: string)
    requires AllSpace(a)
    ensures TrimStart(a + c) == TrimStart(c)
    decreases |a|
  {
    if a == [] {
      assert a + c == c;
    } else {
      assert (a + c)[1..] == a[1..] + c;
      TrimStartBlankHead(a[1..], c);
    }
  }

  /** `lstrip` and `rstrip` of a blank string are empty. */
  lemma TrimBlank(s: string)
    requires AllSpace(s)
    ensures TrimStart(s) == [] && TrimEnd(s) == []
  {
    TrimStartBlankHead(s, []);
    TrimEndBlankTail([], s);
    assert s + [] == s && [] + s == s;
  }

  /** Left-stripping stops at a visible character: only the head can lose anything. */
  lemma TrimStartBefore(b: string, t: string)
    requires t != [] && !IsSpace(t[0])
    ensures TrimStart(b + t) == TrimStart(b) + t
  {
    if AllSpace(b) {
      TrimBlank(b);
      TrimStartBlankHead(b, t);
      assert [] + t == t;
    } else {
      TrimStartAppend(b, t);
    }
  }

  /** Right-stripping stops at a visible character: only the tail can lose anything. */
  lemma TrimEndAfter(h: string, c: string)
    requires h != [] && !IsSpace(h[|h| - 1])
    ensures TrimEnd(h + c) == h + TrimEnd(c)
  {
    if AllSpace(c) {
      TrimBlank(c);
      TrimEndBlankTail(h, c);
      assert h + [] == h;
    } else {
      TrimEndAppend(h, c);
    }
  }

  /**
   * Stripping around a piece that starts and ends with a visible character:
   * only the head loses its leading whitespace and only the tail its trailing
   * whitespace.
   */
  lemma StripAround(b: string, x: string, c: string)
    requires x != [] && !IsSpace(x[0]) && !IsSpace(x[|x| - 1])
    ensures Strip(b + x + c) == TrimStart(b) + x + TrimEnd(c)
  {
    TrimStartBefore(b, x + c);
    assert b + x + c == b + (x + c);
    var head := TrimStart(b) + x;
    assert TrimStart(b) + (x + c) == head + c;
    TrimEndAfter(head, c);
  }

  /** `lstrip` of a concatenation is no longer than the stripped head followed by the whole tail. */
  lemma TrimStartLength(b: string, y: string)
    ensures |TrimStart(b + y)| <= |TrimStart(b)| + |y|
  {
    if AllSpace(b) {
      TrimStartBlankHead(b, y);
      TrimStartSpec(y);
    } else {
      TrimStartAppend(b, y);
    }
  }

  /** `strip` removes at least what `rstrip` removes. */
  lemma StripWithinTrimEnd(c: string)
    ensures |Strip(c)| <= |TrimEnd(c)|
  {
    var t := TrimStart(c);
    TrimStartSpec(c);
    if t == [] {
      assert TrimEnd(t) == [];
    } else {
      var k := |c| - |t|;
      assert c == c[..k] + t;
      assert !IsSpace(t[0]);
      TrimEndAppend(c[..k], t);
    }
  }

  /**
   * An upper bound on `strip` around a middle piece: at most the stripped
   * head, the whole middle and the right-stripped tail.
   */
  lemma StripLength(b: string, x: string, c: string)
    ensures |Strip(b + x + c)| <= |TrimStart(b)| + |x| + |TrimEnd(c)|
  {
    var y := b + x;
    if AllSpace(y) {
      TrimStartBlankHead(y, c);
      StripWithinTrimEnd(c);
    } else {
      TrimStartAppend(y, c);
      TrimStartLength(b, x);
      var h := TrimStart(y);
      if AllSpace(c) {
        TrimEndBlankTail(h, c);
        TrimEndSpec(h);
      } else {
        TrimEndAppend(h, c);
      }
    }
  }

  /** Appending never shortens what `lstrip` keeps of the head. */
  lemma TrimStartGrows(b: string, y: string)
    ensures |TrimStart(b)| <= |TrimStart(b + y)|
  {
    if AllSpace(b) {
      TrimBlank(b);
    } else {
      TrimStartAppend(b, y);
    }
  }

  /** Prepending never shortens what `rstrip` keeps of the tail. */
  lemma TrimEndGrows(y: string, c: string)
    ensures |TrimEnd(c)| <= |TrimEnd(y + c)|
  {
    if AllSpace(c) {
      TrimBlank(c);
    } else {
      TrimEndAppend(y, c);
    }
  }
}
