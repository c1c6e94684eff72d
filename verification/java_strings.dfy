/**
 * The few `java.lang.String` operations the depot code relies on, written out
 * over `seq<char>`: `trim`, `toUpperCase`, `startsWith`, `split(",", 2)`,
 * `split("\\s*,\\s*")` and `Integer.toString`.
 */
module JavaStrings {
  import opened Optional

  /** `String.trim` removes every leading and trailing character up to U+0020. */
  predicate IsTrimChar(c: char) {
    c <= ' '
  }

  /** The characters of the regular-expression class `\s`: space, \t, \n, \x0B, \f, \r. */
  predicate IsRegexSpace(c: char) {
    c == ' ' || c == '\t' || c == '\n' || c == '\U{000B}' || c == '\U{000C}' || c == '\r'
  }

  /** The two kinds of white space the depot code strips. */
  datatype Blank = TrimBlank | RegexBlank

  predicate IsBlank(c: char, kind: Blank) {
    match kind
    case TrimBlank => IsTrimChar(c)
    case RegexBlank => IsRegexSpace(c)
  }

  /** The length of the longest prefix of `s` whose characters are all blanks of `kind`. */
  function LeadingRun(s: string, kind: Blank): (n: nat)
    ensures n <= |s|
    ensures forall i :: 0 <= i < n ==> IsBlank(s[i], kind)
    ensures n < |s| ==> !IsBlank(s[n], kind)
  {
    if |s| > 0 && IsBlank(s[0], kind) then 1 + LeadingRun(s[1..], kind) else 0
  }

  /** The length of the longest suffix of `s` whose characters are all blanks of `kind`. */
  function TrailingRun(s: string, kind: Blank): (n: nat)
    ensures n <= |s|
    ensures forall i :: |s| - n <= i < |s| ==> IsBlank(s[i], kind)
    ensures n < |s| ==> !IsBlank(s[|s| - n - 1], kind)
  {
    if |s| > 0 && IsBlank(s[|s| - 1], kind) then 1 + TrailingRun(s[..|s| - 1], kind) else 0
  }

  function DropLeading(s: string, kind: Blank): string {
    s[LeadingRun(s, kind)..]
  }

  function DropTrailing(s: string, kind: Blank): string {
    s[..|s| - TrailingRun(s, kind)]
  }

  /** `String.trim()`. */
  function Trim(s: string): string {
    DropTrailing(DropLeading(s, TrimBlank), TrimBlank)
  }

  /** Every character of `s` is a blank of `kind`. */
  predicate AllBlank(s: string, kind: Blank) {
    forall i :: 0 <= i < |s| ==> IsBlank(s[i], kind)
  }

  /** A string that starts and ends with a character `trim` keeps. */
  predicate TrimmedShape(s: string) {
    s == [] || (!IsTrimChar(s[0]) && !IsTrimChar(s[|s| - 1]))
  }

  /** A run of `n` blanks followed by a non-blank (or the end) is exactly the leading run. */
  lemma LeadingRunExact(s: string, kind: Blank, n: nat)
    requires n <= |s| && forall i :: 0 <= i < n ==> IsBlank(s[i], kind)
    requires n < |s| ==> !IsBlank(s[n], kind)
    ensures LeadingRun(s, kind) == n
  {
  }

  /** A run of `n` blanks preceded by a non-blank (or the start) is exactly the trailing run. */
  lemma TrailingRunExact(s: string, kind: Blank, n: nat)
    requires n <= |s| && forall i :: |s| - n <= i < |s| ==> IsBlank(s[i], kind)
    requires n < |s| ==> !IsBlank(s[|s| - n - 1], kind)
    ensures TrailingRun(s, kind) == n
  {
  }

  /** The two cut points of `trim`: everything before `a` and from `b` on is a trim character. */
  lemma TrimBounds(s: string) returns (a: nat, b: nat)
    ensures a <= b <= |s| && Trim(s) == s[a..b] && TrimmedShape(s[a..b])
    ensures forall i :: 0 <= i < a ==> IsTrimChar(s[i])
    ensures forall i :: b <= i < |s| ==> IsTrimChar(s[i])
  {
    a := LeadingRun(s, TrimBlank);
    var t := s[a..];
    var n := TrailingRun(t, TrimBlank);
    b := a + |t| - n;
    assert Trim(s) == t[..|t| - n] == s[a..b];
    if |t| - n > 0 {
      assert t[0] == s[a];
    }
    forall i | b <= i < |s|
      ensures IsTrimChar(s[i])
    {
      assert s[i] == t[i - a];
    }
  }

  /**
   * Trimming keeps one contiguous middle part of the string: it starts and ends with
   * a character above the space, and everything cut off on either side is a trim
   * character.
   */
  lemma TrimShape(s: string)
    ensures TrimmedShape(Trim(s))
    ensures exists a, b :: 0 <= a <= b <= |s| && Trim(s) == s[a..b]
              && (forall i :: 0 <= i < a ==> IsTrimChar(s[i]))
              && (forall i :: b <= i < |s| ==> IsTrimChar(s[i]))
    ensures forall c :: !IsTrimChar(c) ==> (c in Trim(s) <==> c in s)
  {
    var a, b := TrimBounds(s);
    forall c | !IsTrimChar(c)
      ensures c in Trim(s) <==> c in s
    {
      if c in s {
        var i :| 0 <= i < |s| && s[i] == c;
        assert s[a..b][i - a] == c;
      }
    }
  }

  /** A string that already starts and ends with a non-trim character is its own trim. */
  lemma TrimOfTrimmed(s: string)
    requires TrimmedShape(s)
    ensures Trim(s) == s
  {
  }

  /** The middle part trimming keeps is determined by the trim characters around it. */
  lemma TrimUnique(s: string, a: nat, b: nat)
    requires a <= b <= |s| && TrimmedShape(s[a..b])
    requires forall i :: 0 <= i < a ==> IsTrimChar(s[i])
    requires forall i :: b <= i < |s| ==> IsTrimChar(s[i])
    ensures Trim(s) == s[a..b]
  {
    if a == b {
      LeadingRunExact(s, TrimBlank, |s|);
    } else {
      assert s[a..b][0] == s[a];
      LeadingRunExact(s, TrimBlank, a);
      var t := s[a..];
      assert t[b - a - 1] == s[b - 1] == s[a..b][b - a - 1];
      assert forall i :: b - a <= i < |t| ==> t[i] == s[i + a];
      TrailingRunExact(t, TrimBlank, |s| - b);
      assert t[..b - a] == s[a..b];
    }
  }

  /** Trim characters outside `t[a..b]` stay outside the same part of `x + t + y` when `x` and `y` are all trim characters. */
  lemma PaddedOutside(x: string, t: string, y: string, a: nat, b: nat)
    requires a <= b <= |t| && AllBlank(x, TrimBlank) && AllBlank(y, TrimBlank)
    requires forall i :: 0 <= i < a ==> IsTrimChar(t[i])
    requires forall i :: b <= i < |t| ==> IsTrimChar(t[i])
    ensures var s := x + t + y;
      && s[|x| + a..|x| + b] == t[a..b]
      && (forall i :: 0 <= i < |x| + a ==> IsTrimChar(s[i]))
      && (forall i :: |x| + b <= i < |s| ==> IsTrimChar(s[i]))
  {
    var s := x + t + y;
    assert s[|x| + a..|x| + b] == t[a..b];
    forall i | 0 <= i < |x| + a
      ensures IsTrimChar(s[i])
    {
      if i < |x| {
        assert s[i] == x[i];
      } else {
        assert s[i] == t[i - |x|];
      }
    }
    forall i | |x| + b <= i < |s|
      ensures IsTrimChar(s[i])
    {
      if i < |x| + |t| {
        assert s[i] == t[i - |x|];
      } else {
        assert s[i] == y[i - |x| - |t|];
      }
    }
  }

  /** Trim characters added around a string do not change its trim. */
  lemma TrimPadded(x: string, t: string, y: string)
    requires AllBlank(x, TrimBlank) && AllBlank(y, TrimBlank)
    ensures Trim(x + t + y) == Trim(t)
  {
    var a, b := TrimBounds(t);
    PaddedOutside(x, t, y, a, b);
    TrimUnique(x + t + y, |x| + a, |x| + b);
  }

  /** Splits off the leading trim characters; what follows starts with a kept character and trims the same. */
  lemma LeadingBlanks(s: string) returns (x: string, rest: string)
    ensures s == x + rest && AllBlank(x, TrimBlank)
    ensures rest == [] || !IsTrimChar(rest[0])
    ensures Trim(s) == Trim(rest)
  {
    var i := LeadingRun(s, TrimBlank);
    x, rest := s[..i], s[i..];
    assert s == x + rest + [];
    TrimPadded(x, rest, []);
  }

  /** Splits off the trailing trim characters; what precedes ends with a kept character and trims the same. */
  lemma TrailingBlanks(s: string) returns (rest: string, y: string)
    ensures s == rest + y && AllBlank(y, TrimBlank)
    ensures rest == [] || !IsTrimChar(rest[|rest| - 1])
    ensures Trim(s) == Trim(rest)
  {
    var j := |s| - TrailingRun(s, TrimBlank);
    rest, y := s[..j], s[j..];
    assert s == [] + rest + y;
    TrimPadded([], rest, y);
  }

  /** Trimming twice is trimming once. */
  lemma TrimIdempotent(s: string)
    ensures Trim(Trim(s)) == Trim(s)
  {
    TrimShape(s);
    TrimOfTrimmed(Trim(s));
  }

  /** `Character.toUpperCase` restricted to ASCII: a-z become A-Z, everything else is kept. */
  function UpperChar(c: char): char {
    if 'a' <= c <= 'z' then (c as int - 32) as char else c
  }

  /** `String.toUpperCase()`, character by character. */
  function ToUpper(s: string): (r: string)
    ensures |r| == |s|
  {
    if |s| == 0 then [] else [UpperChar(s[0])] + ToUpper(s[1..])
  }

  /** Upper-casing works character by character. */
  lemma {:induction false} ToUpperAt(s: string)
    ensures forall i :: 0 <= i < |s| ==> ToUpper(s)[i] == UpperChar(s[i])
  {
    if |s| > 0 {
      ToUpperAt(s[1..]);
    }
  }

  /** Upper-casing leaves no lower-case ASCII letter and changes nothing that is not one. */
  lemma ToUpperShape(s: string)
    ensures forall c :: c in ToUpper(s) ==> !('a' <= c <= 'z')
    ensures forall i :: 0 <= i < |s| && !('a' <= s[i] <= 'z') ==> ToUpper(s)[i] == s[i]
  {
    ToUpperAt(s);
  }

  /** Upper-casing an upper-cased string changes nothing. */
  lemma ToUpperIdempotent(s: string)
    ensures ToUpper(ToUpper(s)) == ToUpper(s)
  {
    ToUpperAt(s);
    ToUpperAt(ToUpper(s));
    assert forall i :: 0 <= i < |s| ==> UpperChar(UpperChar(s[i])) == UpperChar(s[i]);
  }

  /** `s.startsWith("C")`: case-sensitive, so a lower-case 'c' does not qualify. */
  predicate StartsWithC(s: string) {
    |s| > 0 && s[0] == 'C'
  }

  /** `String.indexOf(c)`: the first position of `c`, or None when `c` does not occur. */
  function IndexOf(s: string, c: char): (r: Option<nat>)
    ensures r.None? <==> c !in s
    ensures r.Some? ==> r.value < |s| && s[r.value] == c && c !in s[..r.value]
  {
    if |s| == 0 then None
    else if s[0] == c then Some(0)
    else match IndexOf(s[1..], c)
      case None => None
      case Some(k) => Some(k + 1)
  }

  /** The first occurrence is the only position holding `c` with no `c` before it. */
  lemma IndexOfFirst(s: string, c: char, k: nat)
    requires k < |s| && s[k] == c && c !in s[..k]
    ensures IndexOf(s, c) == Some(k)
  {
  }

  /** `s.split(",", 2)`: at most two pieces, cut at the first comma; no comma gives one piece. */
  function SplitFirstComma(s: string): (r: seq<string>)
    ensures |r| == 1 <==> ',' !in s
    ensures |r| == 1 || |r| == 2
  {
    match IndexOf(s, ',')
    case None => [s]
    case Some(k) => [s[..k], s[k + 1..]]
  }

  /** With no comma the one piece is the whole string; otherwise the left piece holds no comma and the two pieces around one comma give the string back. */
  lemma SplitFirstCommaShape(s: string)
    ensures ',' !in s ==> SplitFirstComma(s) == [s]
    ensures ',' in s ==>
      var r := SplitFirstComma(s);
      ',' !in r[0] && r[0] + [','] + r[1] == s
  {
    if ',' in s {
      var k := IndexOf(s, ',').value;
      assert s[..k] + [','] + s[k + 1..] == s;
    }
  }

  /** The text before the first comma holds no comma, and the two sides with the comma give `s` back. */
  lemma AroundFirstComma(s: string, k: nat)
    requires IndexOf(s, ',') == Some(k)
    ensures s == s[..k] + "," + s[k + 1..] && ',' !in s[..k]
  {
    assert s == s[..k] + [s[k]] + s[k + 1..];
  }

  /** Regrouping `x + name`, a comma and `id + y` around the comma. */
  lemma RegroupAroundComma(line: string, x: string, name: string, id: string, y: string)
    requires line == (x + name) + "," + (id + y)
    ensures line == x + (name + "," + id) + y
  {
  }

  /** Cuts `s` at every comma; the pieces hold no comma. */
  function SplitAtCommas(s: string): (r: seq<string>)
    ensures |r| >= 1
    ensures forall i :: 0 <= i < |r| ==> ',' !in r[i]
    decreases |s|
  {
    match IndexOf(s, ',')
    case None => [s]
    case Some(k) => [s[..k]] + SplitAtCommas(s[k + 1..])
  }

  /** Puts comma-separated pieces back together. */
  function JoinWithCommas(parts: seq<string>): string
    requires |parts| >= 1
  {
    if |parts| == 1 then parts[0] else parts[0] + [','] + JoinWithCommas(parts[1..])
  }

  /** Cutting at commas loses nothing: joining the pieces gives the string back. */
  lemma {:induction false} JoinSplit(s: string)
    ensures JoinWithCommas(SplitAtCommas(s)) == s
    decreases |s|
  {
    match IndexOf(s, ',')
    case None =>
    case Some(k) =>
      var rest := SplitAtCommas(s[k + 1..]);
      assert SplitAtCommas(s) == [s[..k]] + rest;
      assert SplitAtCommas(s)[1..] == rest;
      JoinSplit(s[k + 1..]);
      assert s[..k] + [','] + s[k + 1..] == s;
  }

  /** Removes the empty strings at the end, as `String.split` with limit 0 does. */
  function DropTrailingEmpty(parts: seq<string>): (r: seq<string>)
    ensures |r| <= |parts| && r == parts[..|r|]
    ensures r == [] || r[|r| - 1] != []
    ensures forall i :: |r| <= i < |parts| ==> parts[i] == []
  {
    if |parts| > 0 && parts[|parts| - 1] == [] then DropTrailingEmpty(parts[..|parts| - 1]) else parts
  }

  /**
   * The piece between two separators after `\s*,\s*` has consumed the white space
   * on each side that touches a comma: a piece loses its leading white space unless
   * it is the first, and its trailing white space unless it is the last.
   */
  function StripPiece(p: string, first: bool, last: bool): string {
    var q := if first then p else DropLeading(p, RegexBlank);
    if last then q else DropTrailing(q, RegexBlank)
  }

  /** `s.split("\\s*,\\s*")`: Java's regular-expression split with limit 0. */
  function SplitFields(s: string): (r: seq<string>)
    ensures ',' !in s ==> r == [s]
    ensures forall i :: 0 <= i < |r| ==> ',' !in r[i]
    ensures ',' in s ==> r == [] || r[|r| - 1] != []
  {
    if ',' !in s then [s]
    else
      var pieces := SplitAtCommas(s);
      var n := |pieces|;
      var stripped := seq(n, i requires 0 <= i < n => StripPiece(pieces[i], i == 0, i == n - 1));
      assert forall i :: 0 <= i < n ==> ',' !in stripped[i] by {
        forall i | 0 <= i < n
          ensures ',' !in stripped[i]
        {
          var q := if i == 0 then pieces[i] else DropLeading(pieces[i], RegexBlank);
          assert ',' !in q;
        }
      }
      DropTrailingEmpty(stripped)
  }

  /** A comma-free piece followed by a comma is cut off first, and the cutting goes on after it. */
  lemma SplitAfterPiece(p: string, rest: string)
    requires ',' !in p
    ensures SplitAtCommas(p + [','] + rest) == [p] + SplitAtCommas(rest)
  {
    var s := p + [','] + rest;
    assert s[..|p|] == p;
    assert s[|p| + 1..] == rest;
    IndexOfFirst(s, ',', |p|);
  }

  /** Joining comma-free pieces and cutting at commas gives the pieces back. */
  lemma {:induction false} SplitJoin(parts: seq<string>)
    requires |parts| >= 1
    requires forall i :: 0 <= i < |parts| ==> ',' !in parts[i]
    ensures SplitAtCommas(JoinWithCommas(parts)) == parts
    decreases |parts|
  {
    if |parts| > 1 {
      SplitJoin(parts[1..]);
      SplitAfterPiece(parts[0], JoinWithCommas(parts[1..]));
      assert parts == [parts[0]] + parts[1..];
    }
  }

  /** A field the regular-expression split gives back unchanged: non-empty, comma-free, no white space at either end. */
  predicate CleanField(p: string) {
    |p| > 0 && ',' !in p && !IsRegexSpace(p[0]) && !IsRegexSpace(p[|p| - 1])
  }

  lemma StripClean(p: string, first: bool, last: bool)
    requires CleanField(p)
    ensures StripPiece(p, first, last) == p
  {
    assert LeadingRun(p, RegexBlank) == 0;
    assert DropLeading(p, RegexBlank) == p;
    assert TrailingRun(p, RegexBlank) == 0;
  }

  /** The joined string ends with the last piece's last character. */
  lemma {:induction false} JoinLast(parts: seq<string>)
    requires |parts| >= 1 && |parts[|parts| - 1]| > 0
    ensures var j := JoinWithCommas(parts); var l := parts[|parts| - 1];
      |j| > 0 && j[|j| - 1] == l[|l| - 1]
    decreases |parts|
  {
    if |parts| > 1 {
      JoinLast(parts[1..]);
    }
  }

  /** Stripping leaves clean pieces as they are. */
  lemma StripAllClean(parts: seq<string>)
    requires forall i :: 0 <= i < |parts| ==> CleanField(parts[i])
    ensures seq(|parts|, i requires 0 <= i < |parts| => StripPiece(parts[i], i == 0, i == |parts| - 1)) == parts
  {
    var n := |parts|;
    forall i | 0 <= i < n
      ensures StripPiece(parts[i], i == 0, i == n - 1) == parts[i]
    {
      StripClean(parts[i], i == 0, i == n - 1);
    }
  }

  lemma DropTrailingEmptyKeeps(parts: seq<string>)
    requires |parts| > 0 && parts[|parts| - 1] != []
    ensures DropTrailingEmpty(parts) == parts
  {
  }

  /** Clean fields joined with commas split back into exactly those fields. */
  lemma SplitFieldsJoin(parts: seq<string>)
    requires |parts| >= 1
    requires forall i :: 0 <= i < |parts| ==> CleanField(parts[i])
    ensures SplitFields(JoinWithCommas(parts)) == parts
  {
    var s := JoinWithCommas(parts);
    if |parts| > 1 {
      assert s == parts[0] + [','] + JoinWithCommas(parts[1..]);
      assert s[|parts[0]|] == ',';
      SplitJoin(parts);
      StripAllClean(parts);
      DropTrailingEmptyKeeps(parts);
    }
  }

  /** Leading white space in front of a non-blank character is all that is dropped. */
  lemma DropLeadingPadded(pre: string, g: string, kind: Blank)
    requires AllBlank(pre, kind) && |g| > 0 && !IsBlank(g[0], kind)
    ensures DropLeading(pre + g, kind) == g
  {
    var p := pre + g;
    assert p[|pre|] == g[0];
    assert forall i :: 0 <= i < |pre| ==> p[i] == pre[i];
    LeadingRunExact(p, kind, |pre|);
  }

  /** Trailing white space after a non-blank character is all that is dropped. */
  lemma DropTrailingPadded(g: string, post: string, kind: Blank)
    requires AllBlank(post, kind) && |g| > 0 && !IsBlank(g[|g| - 1], kind)
    ensures DropTrailing(g + post, kind) == g
  {
    var q := g + post;
    assert q[|q| - |post| - 1] == g[|g| - 1];
    assert forall i :: |q| - |post| <= i < |q| ==> q[i] == post[i - |g|];
    TrailingRunExact(q, kind, |post|);
    assert q[..|g|] == g;
  }

  /** A clean field with white space that touches no comma: only the padding beside a comma is stripped. */
  lemma StripPadded(pre: string, f: string, post: string, first: bool, last: bool)
    requires CleanField(f) && AllBlank(pre, RegexBlank) && AllBlank(post, RegexBlank)
    requires first ==> pre == []
    requires last ==> post == []
    ensures StripPiece(pre + f + post, first, last) == f
  {
    var p := pre + f + post;
    var g := f + post;
    assert p == pre + g;
    assert g[0] == f[0];
    var q := if first then p else DropLeading(p, RegexBlank);
    if first {
      assert q == g;
    } else {
      DropLeadingPadded(pre, g, RegexBlank);
    }
    if last {
      assert q == f;
    } else {
      DropTrailingPadded(f, post, RegexBlank);
    }
  }

  /** Each field with its white space before and after, ready to be joined with commas. */
  function Padded(fields: seq<string>, pre: seq<string>, post: seq<string>): (r: seq<string>)
    requires |pre| == |fields| && |post| == |fields|
    ensures |r| == |fields|
  {
    seq(|fields|, i requires 0 <= i < |fields| => pre[i] + fields[i] + post[i])
  }

  /** Clean fields, each padded with any white space next to the commas, are what the regular-expression split of the joined line gives. */
  predicate PaddingAroundCommas(fields: seq<string>, pre: seq<string>, post: seq<string>) {
    && |fields| >= 1 && |pre| == |fields| && |post| == |fields|
    && pre[0] == [] && post[|fields| - 1] == []
    && forall i :: 0 <= i < |fields| ==>
         CleanField(fields[i]) && AllBlank(pre[i], RegexBlank) && AllBlank(post[i], RegexBlank)
  }

  /** White space is never a comma, so padded clean fields hold no comma. */
  lemma PaddedCommaFree(fields: seq<string>, pre: seq<string>, post: seq<string>)
    requires PaddingAroundCommas(fields, pre, post)
    ensures forall i :: 0 <= i < |fields| ==> ',' !in Padded(fields, pre, post)[i]
  {
    forall i | 0 <= i < |fields|
      ensures ',' !in Padded(fields, pre, post)[i]
    {
      assert Padded(fields, pre, post)[i] == pre[i] + fields[i] + post[i];
    }
  }

  /** Stripping removes exactly the padding from every padded clean field. */
  lemma StripAllPadded(fields: seq<string>, pre: seq<string>, post: seq<string>)
    requires PaddingAroundCommas(fields, pre, post)
    ensures var pieces := Padded(fields, pre, post); var n := |pieces|;
      seq(n, i requires 0 <= i < n => StripPiece(pieces[i], i == 0, i == n - 1)) == fields
  {
    var pieces := Padded(fields, pre, post);
    var n := |pieces|;
    forall i | 0 <= i < n
      ensures StripPiece(pieces[i], i == 0, i == n - 1) == fields[i]
    {
      StripPadded(pre[i], fields[i], post[i], i == 0, i == n - 1);
    }
  }

  /**
   * Clean fields joined with commas, with any run of white space on either side of
   * each comma, split back into exactly those fields: the separator absorbs the
   * white space next to every comma.
   */
  lemma SplitFieldsPadded(fields: seq<string>, pre: seq<string>, post: seq<string>)
    requires PaddingAroundCommas(fields, pre, post)
    ensures SplitFields(JoinWithCommas(Padded(fields, pre, post))) == fields
  {
    var pieces := Padded(fields, pre, post);
    var s := JoinWithCommas(pieces);
    assert pieces[0] == fields[0] + post[0];
    if |fields| == 1 {
      assert s == fields[0];
    } else {
      assert s == pieces[0] + [','] + JoinWithCommas(pieces[1..]);
      assert s[|pieces[0]|] == ',';
      PaddedCommaFree(fields, pre, post);
      SplitJoin(pieces);
      StripAllPadded(fields, pre, post);
      DropTrailingEmptyKeeps(fields);
    }
  }

  function DigitChar(d: nat): char
    requires d < 10
  {
    "0123456789"[d]
  }

  function NatText(n: nat): string
    decreases n
  {
    if n < 10 then [DigitChar(n)] else NatText(n / 10) + [DigitChar(n % 10)]
  }

  /** `Integer.toString(n)`. */
  function IntText(n: int): string {
    if n < 0 then "-" + NatText(-n) else NatText(n)
  }
}
