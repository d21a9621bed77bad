/** Python text operations: UTF-8 sizes, joining, splitting, containment and string order. */
module Text {

  /** Bytes that UTF-8 uses for one scalar value. */
  function Utf8Width(c: char): nat {
    var n := c as int;
    if n < 0x80 then 1 else if n < 0x800 then 2 else if n < 0x1_0000 then 3 else 4
  }

  function Utf8Size(s: string): nat {
    if s == "" then 0 else Utf8Width(s[0]) + Utf8Size(s[1..])
  }

  lemma {:induction false} Utf8SizeConcat(a: string, b: string)
    ensures Utf8Size(a + b) == Utf8Size(a) + Utf8Size(b)
  {
    if a == "" {
      assert a + b == b;
    } else {
      assert (a + b)[1..] == a[1..] + b;
      Utf8SizeConcat(a[1..], b);
    }
  }

  /** `unicodedata.category(c) == "Cc"`. */
  predicate IsControl(c: char) {
    c as int < 32 || 127 <= c as int < 160
  }

  predicate HasControl(s: string) {
    exists i :: 0 <= i < |s| && IsControl(s[i])
  }

  /** `needle in text`. */
  predicate Contains(text: string, needle: string) {
    exists i :: 0 <= i <= |text| && needle <= text[i..]
  }

  predicate StartsWith(text: string, prefix: string) {
    prefix <= text
  }

  /** `sep.join(parts)`. */
  function Join(sep: char, parts: seq<string>): string {
    if parts == [] then ""
    else if |parts| == 1 then parts[0]
    else parts[0] + [sep] + Join(sep, parts[1..])
  }

  /** `text.split(sep)`: never empty, one more part than there are separators. */
  function Split(sep: char, text: string): (parts: seq<string>)
    ensures |parts| >= 1
  {
    if text == "" then [""]
    else
      var rest := Split(sep, text[1..]);
      if text[0] == sep then [""] + rest else [[text[0]] + rest[0]] + rest[1..]
  }

  lemma {:induction false} SplitOfPlain(sep: char, part: string)
    requires sep !in part
    ensures Split(sep, part) == [part]
  {
    if part != "" {
      SplitOfPlain(sep, part[1..]);
      assert [part[0]] + part[1..] == part;
    }
  }

  lemma {:induction false} SplitAtFirst(sep: char, part: string, rest: string)
    requires sep !in part
    ensures Split(sep, part + [sep] + rest) == [part] + Split(sep, rest)
  {
    var whole := part + [sep] + rest;
    if part == "" {
      assert whole[1..] == rest;
    } else {
      assert whole[1..] == part[1..] + [sep] + rest;
      SplitAtFirst(sep, part[1..], rest);
      assert [part[0]] + part[1..] == part;
    }
  }

  /** Splitting undoes joining when no part holds the separator. */
  lemma {:induction false} SplitJoin(sep: char, parts: seq<string>)
    requires parts != []
    requires forall p :: p in parts ==> sep !in p
    ensures Split(sep, Join(sep, parts)) == parts
  {
    if |parts| == 1 {
      SplitOfPlain(sep, parts[0]);
    } else {
      SplitJoin(sep, parts[1..]);
      SplitAtFirst(sep, parts[0], Join(sep, parts[1..]));
    }
  }

  lemma {:induction false} SplitPartsArePlain(sep: char, text: string)
    ensures forall p :: p in Split(sep, text) ==> sep !in p
  {
    if text != "" {
      SplitPartsArePlain(sep, text[1..]);
    }
  }

  /** Joining undoes splitting, for every text. */
  lemma {:induction false} JoinSplit(sep: char, text: string)
    ensures Join(sep, Split(sep, text)) == text
  {
    if text != "" {
      var rest := Split(sep, text[1..]);
      JoinSplit(sep, text[1..]);
      var parts := Split(sep, text);
      if text[0] == sep {
        assert parts[1..] == rest;
      } else if |rest| > 1 {
        assert parts[1..] == rest[1..];
      }
    }
  }

  lemma {:induction false} JoinAppend(sep: char, parts: seq<string>, part: string)
    requires parts != []
    ensures Join(sep, parts + [part]) == Join(sep, parts) + [sep] + part
  {
    if |parts| == 1 {
      assert (parts + [part])[1..] == [part];
    } else {
      assert (parts + [part])[1..] == parts[1..] + [part];
      JoinAppend(sep, parts[1..], part);
    }
  }

  function TotalSize(parts: seq<string>): nat {
    if parts == [] then 0 else Utf8Size(parts[0]) + TotalSize(parts[1..])
  }

  function JoinedSize(parts: seq<string>): nat {
    TotalSize(parts) + if parts == [] then 0 else |parts| - 1
  }

  /** The byte length of a newline join depends on the parts only through their sizes. */
  lemma {:induction false} JoinedSizeIsSize(parts: seq<string>)
    ensures Utf8Size(Join('\n', parts)) == JoinedSize(parts)
  {
    if |parts| == 1 {
      assert TotalSize(parts[1..]) == 0;
    } else if |parts| > 1 {
      JoinedSizeIsSize(parts[1..]);
      Utf8SizeConcat(parts[0], ['\n']);
      Utf8SizeConcat(parts[0] + ['\n'], Join('\n', parts[1..]));
      assert Utf8Size(['\n']) == 1 by { assert ['\n'][1..] == ""; }
    }
  }

  lemma {:induction false} TotalSizeSplit(a: seq<string>, b: seq<string>)
    ensures TotalSize(a + b) == TotalSize(a) + TotalSize(b)
  {
    if a == [] {
      assert a + b == b;
    } else {
      assert (a + b)[1..] == a[1..] + b;
      TotalSizeSplit(a[1..], b);
    }
  }

  lemma {:induction false} TotalSizePermuted(a: seq<string>, b: seq<string>)
    requires multiset(a) == multiset(b)
    ensures TotalSize(a) == TotalSize(b) && |a| == |b|
  {
    assert |multiset(a)| == |a| && |multiset(b)| == |b|;
    if a != [] {
      assert a[0] in multiset(b);
      var i :| 0 <= i < |b| && b[i] == a[0];
      var rest := b[..i] + b[i + 1..];
      assert a == [a[0]] + a[1..];
      assert b == b[..i] + [b[i]] + b[i + 1..];
      assert multiset(a) == multiset{a[0]} + multiset(a[1..]);
      assert multiset(b) == multiset(b[..i]) + multiset{b[i]} + multiset(b[i + 1..]);
      assert multiset(a[1..]) == multiset(a) - multiset{a[0]};
      assert multiset(rest) == multiset(b) - multiset{a[0]};
      TotalSizePermuted(a[1..], rest);
      TotalSizeSplit(b[..i] + [b[i]], b[i + 1..]);
      TotalSizeSplit(b[..i], [b[i]]);
      TotalSizeSplit(b[..i], b[i + 1..]);
      assert TotalSize([b[i]]) == Utf8Size(b[i]) + TotalSize([b[i]][1..]);
    }
  }

  /** Python's order on strings: lexicographic by code point. */
  predicate StringLe(a: string, b: string) {
    a == "" || (b != "" && (a[0] < b[0] || (a[0] == b[0] && StringLe(a[1..], b[1..]))))
  }

  lemma {:induction false} StringLeTotal(a: string, b: string)
    ensures StringLe(a, b) || StringLe(b, a)
  {
    if a != "" && b != "" && a[0] == b[0] {
      StringLeTotal(a[1..], b[1..]);
    }
  }

  lemma {:induction false} StringLeAntisymmetric(a: string, b: string)
    requires StringLe(a, b) && StringLe(b, a)
    ensures a == b
  {
    if a != "" && b != "" {
      StringLeAntisymmetric(a[1..], b[1..]);
      assert a == [a[0]] + a[1..] && b == [b[0]] + b[1..];
    }
  }

  lemma {:induction false} StringLeTransitive(a: string, b: string, c: string)
    requires StringLe(a, b) && StringLe(b, c)
    ensures StringLe(a, c)
  {
    if a != "" && a[0] == b[0] && b[0] == c[0] {
      StringLeTransitive(a[1..], b[1..], c[1..]);
    }
  }
}
