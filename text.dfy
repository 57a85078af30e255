/** String operations of the JavaScript runtime that the components rely on:
    `String.prototype.trim`, `Array.prototype.join`, `String.prototype.split`
    with a one-character separator, and the `+=` accumulation used by the
    share-text builders. */
module Text {
  import opened Common

  /** ECMAScript WhiteSpace and LineTerminator code points, the set `trim` removes. */
  predicate IsWhitespace(c: char) {
    c == '\t' || c == '\n' || c == '\U{000B}' || c == '\U{000C}' || c == '\r' ||
    c == ' ' || c == '\U{00A0}' || c == '\U{1680}' || ('\U{2000}' <= c <= '\U{200A}') ||
    c == '\U{2028}' || c == '\U{2029}' || c == '\U{202F}' || c == '\U{205F}' ||
    c == '\U{3000}' || c == '\U{FEFF}'
  }

  predicate AllWhitespace(s: string) {
    forall k :: 0 <= k < |s| ==> IsWhitespace(s[k])
  }

  /** A string `trim` leaves unchanged: no whitespace at either end. */
  predicate IsTrimmed(s: string) {
    s == [] || (!IsWhitespace(s[0]) && !IsWhitespace(s[|s| - 1]))
  }

  /** Drops leading whitespace. What it keeps and drops is stated by
      `TrimStartKeepsSuffix`, so that callers which only pass the result on
      do not carry those facts around. */
  function TrimStart(s: string): (r: string)
    ensures |r| <= |s|
  {
    if s != [] && IsWhitespace(s[0]) then TrimStart(s[1..]) else s
  }

  /** Drops trailing whitespace; see `TrimEndKeepsPrefix`. */
  function TrimEnd(s: string): (r: string)
    ensures |r| <= |s|
  {
    if s != [] && IsWhitespace(s[|s| - 1]) then TrimEnd(s[..|s| - 1]) else s
  }

  /** `TrimStart` keeps a suffix that starts with a non-blank character and
      drops only whitespace. */
  lemma {:induction false} TrimStartKeepsSuffix(s: string)
    ensures var r := TrimStart(s);
      && r == s[|s| - |r|..]
      && (r == [] || !IsWhitespace(r[0]))
      && AllWhitespace(s[..|s| - |r|])
  {
    if s != [] && IsWhitespace(s[0]) {
      TrimStartKeepsSuffix(s[1..]);
      var r := TrimStart(s[1..]);
      assert s[..|s| - |r|] == [s[0]] + s[1..][..|s| - 1 - |r|];
    }
  }

  /** `TrimEnd` keeps a prefix that ends in a non-blank character and drops
      only whitespace. */
  lemma {:induction false} TrimEndKeepsPrefix(s: string)
    ensures var r := TrimEnd(s);
      && r == s[..|r|]
      && (r == [] || !IsWhitespace(r[|r| - 1]))
      && AllWhitespace(s[|r|..])
  {
    if s != [] && IsWhitespace(s[|s| - 1]) {
      TrimEndKeepsPrefix(s[..|s| - 1]);
      var r := TrimEnd(s[..|s| - 1]);
      assert s[|r|..] == s[..|s| - 1][|r|..] + [s[|s| - 1]];
    }
  }

  /** `String.prototype.trim`. */
  function Trim(s: string): (r: string)
    ensures IsTrimmed(r)
    ensures |r| <= |s|
  {
    TrimStartKeepsSuffix(s);
    TrimEndKeepsPrefix(TrimStart(s));
    var t := TrimStart(s);
    var r := TrimEnd(t);
    assert r != [] ==> r[0] == t[0];
    r
  }

  /** `trim` gives the empty string exactly for an all-blank input, which is
      how the forms tell a blank field. */
  lemma TrimEmptyIffBlank(s: string)
    ensures Trim(s) == [] <==> AllWhitespace(s)
  {
    TrimStartKeepsSuffix(s);
    var t := TrimStart(s);
    TrimEndKeepsPrefix(t);
    if Trim(s) == [] {
      assert t[|TrimEnd(t)|..] == t;
      assert s[..|s|] == s;
    } else {
      assert t[0] == s[|s| - |t|];
    }
  }

  /** Trimming a string that starts with a non-blank prefix keeps that prefix:
      only the tail past it can lose trailing whitespace. */
  lemma {:induction false} TrimKeepsLeadingText(p: string, s: string)
    requires p != [] && !IsWhitespace(p[0]) && !IsWhitespace(p[|p| - 1])
    ensures Trim(p + s) == p + TrimEnd(s)
  {
    assert TrimStart(p + s) == p + s;
    TrimEndAfterPrefix(p, s);
  }

  lemma {:induction false} TrimEndAfterPrefix(p: string, s: string)
    requires p != [] && !IsWhitespace(p[|p| - 1])
    ensures TrimEnd(p + s) == p + TrimEnd(s)
    decreases |s|
  {
    if s == [] {
      assert p + s == p;
    } else if IsWhitespace(s[|s| - 1]) {
      assert (p + s)[..|p + s| - 1] == p + s[..|s| - 1];
      TrimEndAfterPrefix(p, s[..|s| - 1]);
    } else {
      assert TrimEnd(s) == s;
    }
  }

  /** `trim` is idempotent. */
  lemma TrimIdempotent(s: string)
    ensures Trim(Trim(s)) == Trim(s)
  {
    var t := Trim(s);
    assert TrimStart(t) == t;
    assert TrimEnd(t) == t;
  }

  /** Regrouping an accumulation that ends in `e + h` around its first piece
      and its last. */
  lemma Regroup(p: string, a: string, b: string, c: string, d: string, e: string, h: string)
    ensures p + a + b + c + d + (e + h) == p + (a + b + c + d + e) + h
  {
  }

  /** Regrouping an accumulation around its first piece and its last. */
  lemma Regroup5(p: string, a: string, b: string, c: string, d: string, h: string)
    ensures p + a + b + c + d + h == p + (a + b + c + d) + h
  {
  }

  /** A concatenation ends with its last piece. */
  lemma EndsWith(a: string, b: string)
    ensures |b| <= |a + b| && (a + b)[|a + b| - |b|..] == b
  {
  }

  /** Appending two pieces one after another appends their concatenation. */
  lemma AppendTwo(t: string, a: string, b: string)
    ensures t + a + b == t + (a + b)
  {
  }

  /** Appending three pieces one after another appends their concatenation. */
  lemma AppendThree(t: string, a: string, b: string, c: string)
    ensures t + a + b + c == t + (a + b + c)
  {
  }

  /** Trimming a text that starts with a non-blank lead keeps the lead, and
      removes nothing when the text also ends in a non-blank character. */
  lemma TrimAfterLead(p: string, s: string, h: string)
    requires p != [] && !IsWhitespace(p[0]) && !IsWhitespace(p[|p| - 1])
    ensures |p| <= |Trim(p + s + h)| && Trim(p + s + h)[..|p|] == p
    ensures h != [] && !IsWhitespace(h[|h| - 1]) ==> Trim(p + s + h) == p + s + h
  {
    assert p + s + h == p + (s + h);
    TrimKeepsLeadingText(p, s + h);
    if h != [] && !IsWhitespace(h[|h| - 1]) {
      assert (s + h)[|s + h| - 1] == h[|h| - 1];
      assert TrimEnd(s + h) == s + h;
    }
  }

  /** The concatenation of `block(x)` over the items, built left to right the
      way a `forEach` callback appends to an accumulator. */
  function ConcatMap<T>(block: T -> string, items: seq<T>): string
  {
    if items == [] then "" else ConcatMap(block, items[..|items| - 1]) + block(items[|items| - 1])
  }

  /** One more `+=` extends the accumulated concatenation by that item's block. */
  lemma ConcatMapSnoc<T>(block: T -> string, items: seq<T>, i: nat)
    requires i < |items|
    ensures ConcatMap(block, items[..i + 1]) == ConcatMap(block, items[..i]) + block(items[i])
  {
    assert items[..i + 1][..i] == items[..i];
  }

  /** `items.forEach(item => { text += block(item) })`: appends each item's
      block to the accumulator, in order. */
  method AppendEach<T>(text: string, items: seq<T>, block: T -> string) returns (r: string)
    ensures r == text + ConcatMap(block, items)
  {
    r := text;
    var i := 0;
    while i < |items|
      invariant 0 <= i <= |items|
      invariant r == text + ConcatMap(block, items[..i])
    {
      ConcatMapSnoc(block, items, i);
      r := r + block(items[i]);
      i := i + 1;
    }
    assert items[..|items|] == items;
  }

  /** A list that may be missing, shown under a heading only when it is
      present and has at least one entry (`if (list && list.length > 0)`):
      the heading, then one block per entry in order. */
  function ListSection<T>(heading: string, block: T -> string, items: Option<seq<T>>): (r: string)
    requires heading != ""
    ensures r == "" <==> items.None? || |items.value| == 0
    ensures r != "" ==> |heading| <= |r| && r[..|heading|] == heading
  {
    if items.Some? && |items.value| > 0 then heading + ConcatMap(block, items.value) else ""
  }

  /** The guarded heading followed by the `forEach` that appends each entry's block. */
  method AppendListSection<T>(text: string, heading: string, block: T -> string, items: Option<seq<T>>)
    returns (r: string)
    requires heading != ""
    ensures r == text + ListSection(heading, block, items)
  {
    r := text;
    if items.Some? && |items.value| > 0 {
      r := r + heading;
      r := AppendEach(r, items.value, block);
    }
  }

  /** `Array.prototype.join(sep)`: `sep` between consecutive parts, none after the last. */
  function Join(parts: seq<string>, sep: string): (r: string)
    ensures parts == [] ==> r == ""
  {
    if |parts| == 0 then ""
    else if |parts| == 1 then parts[0]
    else parts[0] + sep + Join(parts[1..], sep)
  }

  /** Appending one more part to a non-empty join puts exactly one separator before it. */
  lemma {:induction false} JoinSnoc(parts: seq<string>, x: string, sep: string)
    requires parts != []
    ensures Join(parts + [x], sep) == Join(parts, sep) + sep + x
  {
    if |parts| == 1 {
      assert (parts + [x])[1..] == [x];
    } else {
      assert (parts + [x])[1..] == parts[1..] + [x];
      JoinSnoc(parts[1..], x, sep);
    }
  }

  /** `items.map(block).join(sep)`, unfolded from the right the way a loop
      that writes a separator between consecutive blocks builds it. */
  function JoinMap<T>(block: T -> string, items: seq<T>, sep: string): string
  {
    if |items| == 0 then ""
    else if |items| == 1 then block(items[0])
    else JoinMap(block, items[..|items| - 1], sep) + sep + block(items[|items| - 1])
  }

  /** One more item extends a non-empty prefix's join by a separator and its block. */
  lemma JoinMapSnoc<T>(block: T -> string, items: seq<T>, sep: string, i: nat)
    requires 0 < i < |items|
    ensures JoinMap(block, items[..i + 1], sep) == JoinMap(block, items[..i], sep) + sep + block(items[i])
  {
    assert items[..i + 1][..i] == items[..i];
  }

  /** What a loop that writes `sep` after every block but the last has
      accumulated before item `i`: the prefix, the first `i` blocks joined, and
      the separator written after block `i - 1` when more items follow. */
  function JoinedSoFar<T>(prefix: string, block: T -> string, items: seq<T>, sep: string, i: nat): string
    requires i <= |items|
  {
    prefix + (JoinMap(block, items[..i], sep) + (if 0 < i < |items| then sep else ""))
  }

  /** One iteration: append item `i`'s block, then the separator unless it is the last. */
  lemma JoinStep<T>(prefix: string, block: T -> string, items: seq<T>, sep: string, i: nat)
    requires i < |items|
    ensures JoinedSoFar(prefix, block, items, sep, i) + block(items[i]) + (if i < |items| - 1 then sep else "")
         == JoinedSoFar(prefix, block, items, sep, i + 1)
  {
    if i > 0 {
      JoinMapSnoc(block, items, sep, i);
    } else {
      assert items[..1] == [items[0]];
    }
  }

  /** After the last item the accumulator holds the prefix and the whole join. */
  lemma JoinDone<T>(prefix: string, block: T -> string, items: seq<T>, sep: string)
    ensures JoinedSoFar(prefix, block, items, sep, |items|) == prefix + JoinMap(block, items, sep)
  {
    assert items[..|items|] == items;
  }

  /** The loop's join is `Array.prototype.join` applied to the mapped blocks. */
  lemma {:induction false} JoinMapIsJoin<T>(block: T -> string, items: seq<T>, sep: string)
    ensures JoinMap(block, items, sep) == Join(MapSeq(block, items), sep)
    decreases |items|
  {
    if |items| > 1 {
      var init := items[..|items| - 1];
      JoinMapIsJoin(block, init, sep);
      assert MapSeq(block, items) == MapSeq(block, init) + [block(items[|items| - 1])];
      JoinSnoc(MapSeq(block, init), block(items[|items| - 1]), sep);
    } else if |items| == 1 {
      assert MapSeq(block, items) == [block(items[0])];
    }
  }

  /** `String.prototype.split(c)` for a one-character separator: the fields
      between occurrences of `c`, always at least one. */
  function Split(s: string, c: char): (r: seq<string>)
    ensures |r| >= 1
  {
    if s == [] then [""]
    else if s[0] == c then [""] + Split(s[1..], c)
    else var t := Split(s[1..], c); [[s[0]] + t[0]] + t[1..]
  }

  /** A string without the separator is a single field. */
  lemma {:induction false} SplitNoSeparator(s: string, c: char)
    requires c !in s
    ensures Split(s, c) == [s]
  {
    if s != [] {
      SplitNoSeparator(s[1..], c);
      assert [s[0]] + s[1..] == s;
    }
  }

  /** A field free of the separator, followed by the separator, is split off as the first field. */
  lemma {:induction false} SplitField(x: string, c: char, rest: string)
    requires c !in x
    ensures Split(x + [c] + rest, c) == [x] + Split(rest, c)
  {
    if x == [] {
      assert x + [c] + rest == [c] + rest;
      assert ([c] + rest)[1..] == rest;
    } else {
      assert (x + [c] + rest)[1..] == x[1..] + [c] + rest;
      SplitField(x[1..], c, rest);
      assert [x[0]] + x[1..] == x;
    }
  }

  /** Splitting a join on the same one-character separator gives the parts back,
      provided no part contains the separator. */
  lemma {:induction false} SplitJoin(parts: seq<string>, c: char)
    requires parts != []
    requires forall i :: 0 <= i < |parts| ==> c !in parts[i]
    ensures Split(Join(parts, [c]), c) == parts
  {
    if |parts| == 1 {
      SplitNoSeparator(parts[0], c);
    } else {
      SplitJoin(parts[1..], c);
      SplitField(parts[0], c, Join(parts[1..], [c]));
      assert [parts[0]] + parts[1..] == parts;
    }
  }
}
