/** The functions of Go's `strings` package that the update manager relies
    on, with Go's semantics on strings of Unicode code points. */
module GoStrings {

  /** Go's unicode.IsSpace, the white space that strings.TrimSpace removes. */
  predicate IsSpace(c: char)
  {
    c == '\t' || c == '\n' || c == '\U{0B}' || c == '\U{0C}' || c == '\r' || c == ' ' ||
    c == '\U{85}' || c == '\U{A0}' || c == '\U{1680}' || ('\U{2000}' <= c <= '\U{200A}') ||
    c == '\U{2028}' || c == '\U{2029}' || c == '\U{202F}' || c == '\U{205F}' || c == '\U{3000}'
  }

  /** Index of the first occurrence of `c` in `s` from index k on, or |s|
      when there is none. */
  function IndexFrom(s: string, c: char, k: nat): (i: nat)
    requires k <= |s|
    ensures k <= i <= |s|
    ensures i < |s| ==> s[i] == c
    decreases |s| - k
  {
    if k == |s| then k
    else if s[k] == c then k
    else IndexFrom(s, c, k + 1)
  }

  /** No occurrence of `c` lies between k and IndexFrom(s, c, k). */
  lemma {:induction false} IndexFromIsFirst(s: string, c: char, k: nat)
    requires k <= |s|
    ensures forall j :: k <= j < IndexFrom(s, c, k) ==> s[j] != c
    decreases |s| - k
  {
    if k < |s| && s[k] != c {
      IndexFromIsFirst(s, c, k + 1);
    }
  }

  /** Index of the first occurrence of `c` in `s`, or |s| when there is none. */
  function IndexOf(s: string, c: char): (i: nat)
    ensures i <= |s|
    ensures i < |s| ==> s[i] == c
  {
    IndexFrom(s, c, 0)
  }

  /** No occurrence of `c` comes before IndexOf(s, c). */
  lemma IndexOfIsFirst(s: string, c: char)
    ensures forall k :: 0 <= k < IndexOf(s, c) ==> s[k] != c
  {
    IndexFromIsFirst(s, c, 0);
  }

  /** The first occurrence is unique: any index with the properties of
      IndexOf is IndexOf. */
  lemma IndexOfUnique(s: string, c: char, i: nat)
    requires i <= |s|
    requires i < |s| ==> s[i] == c
    requires forall k :: 0 <= k < i ==> s[k] != c
    ensures IndexOf(s, c) == i
  {
    IndexOfIsFirst(s, c);
  }

  /** strings.Split with a one-character separator: the text up to the next
      separator is a piece, and splitting goes on after it; there is always
      at least one piece. */
  function Split(s: string, sep: char): (parts: seq<string>)
    ensures |parts| >= 1
    decreases |s|
  {
    var i := IndexOf(s, sep);
    if i == |s| then [s] else [s[..i]] + Split(s[i + 1..], sep)
  }

  /** No piece of a split contains the separator. */
  lemma {:induction false} SplitPartsLackSep(s: string, sep: char)
    ensures forall i :: 0 <= i < |Split(s, sep)| ==> sep !in Split(s, sep)[i]
    decreases |s|
  {
    var i := IndexOf(s, sep);
    IndexOfIsFirst(s, sep);
    if i < |s| {
      SplitPartsLackSep(s[i + 1..], sep);
      assert Split(s, sep)[1..] == Split(s[i + 1..], sep);
    }
  }

  /** strings.Join with a one-character separator. */
  function Join(parts: seq<string>, sep: char): string
  {
    if |parts| == 0 then ""
    else if |parts| == 1 then parts[0]
    else parts[0] + [sep] + Join(parts[1..], sep)
  }

  /** A string without the separator is a single piece. */
  lemma SplitWithoutSep(s: string, sep: char)
    requires sep !in s
    ensures Split(s, sep) == [s]
  {
    assert forall k :: 0 <= k < |s| ==> s[k] != sep;
    IndexOfUnique(s, sep, |s|);
  }

  /** The first separator of a + [sep] + b is the first one of `a`, or the
      added one when `a` has none. */
  lemma IndexOfConcat(a: string, sep: char, b: string)
    ensures IndexOf(a + [sep] + b, sep) == IndexOf(a, sep)
  {
    var whole := a + [sep] + b;
    var i := IndexOf(a, sep);
    IndexOfIsFirst(a, sep);
    assert forall k :: 0 <= k < i ==> whole[k] == a[k];
    assert whole[i] == sep;
    IndexOfUnique(whole, sep, i);
  }

  /** SplitConcat when `a` holds no separator. */
  lemma SplitConcatNoSep(a: string, sep: char, b: string)
    requires IndexOf(a, sep) == |a|
    ensures Split(a + [sep] + b, sep) == Split(a, sep) + Split(b, sep)
  {
    var whole := a + [sep] + b;
    IndexOfConcat(a, sep, b);
    assert whole[..|a|] == a;
    assert whole[|a| + 1..] == b;
  }

  /** One step of Split. */
  lemma SplitUnfold(s: string, sep: char)
    requires IndexOf(s, sep) < |s|
    ensures Split(s, sep) == [s[..IndexOf(s, sep)]] + Split(s[IndexOf(s, sep) + 1..], sep)
  {
  }

  /** The two sides of a separator of `a` inside a + [sep] + b. */
  lemma SlicesOfConcat(a: string, sep: char, b: string, i: nat)
    requires i < |a|
    ensures (a + [sep] + b)[..i] == a[..i]
    ensures (a + [sep] + b)[i + 1..] == a[i + 1..] + [sep] + b
  {
  }

  /** SplitConcat when `a` holds a separator, given SplitConcat for the text
      after it. */
  lemma SplitConcatStep(a: string, sep: char, b: string)
    requires IndexOf(a, sep) < |a|
    requires Split(a[IndexOf(a, sep) + 1..] + [sep] + b, sep) ==
             Split(a[IndexOf(a, sep) + 1..], sep) + Split(b, sep)
    ensures Split(a + [sep] + b, sep) == Split(a, sep) + Split(b, sep)
  {
    var i := IndexOf(a, sep);
    IndexOfConcat(a, sep, b);
    SlicesOfConcat(a, sep, b, i);
    SplitUnfold(a + [sep] + b, sep);
    SplitUnfold(a, sep);
    SeqAssoc([a[..i]], Split(a[i + 1..], sep), Split(b, sep));
  }

  /** Concatenation of sequences of pieces is associative. */
  lemma SeqAssoc(x: seq<string>, y: seq<string>, z: seq<string>)
    ensures x + (y + z) == (x + y) + z
  {
  }

  /** Splitting at a separator splits the two sides independently. */
  lemma {:induction false} SplitConcat(a: string, sep: char, b: string)
    ensures Split(a + [sep] + b, sep) == Split(a, sep) + Split(b, sep)
    decreases |a|
  {
    var i := IndexOf(a, sep);
    if i == |a| {
      SplitConcatNoSep(a, sep, b);
    } else {
      SplitConcat(a[i + 1..], sep, b);
      SplitConcatStep(a, sep, b);
    }
  }

  /** Joining the pieces gives back the original string. */
  lemma {:induction false} JoinSplit(s: string, sep: char)
    ensures Join(Split(s, sep), sep) == s
    decreases |s|
  {
    var i := IndexOf(s, sep);
    if i < |s| {
      var head, tail := s[..i], s[i + 1..];
      var rest := Split(tail, sep);
      var parts := [head] + rest;
      assert Split(s, sep) == parts;
      JoinSplit(tail, sep);
      assert parts[0] == head && parts[1..] == rest;
      assert Join(parts, sep) == head + [sep] + Join(rest, sep);
      assert s == head + [sep] + tail;
    }
  }

  /** Splitting a join of separator-free pieces gives back the pieces. */
  lemma {:induction false} SplitJoin(parts: seq<string>, sep: char)
    requires |parts| >= 1
    requires forall i :: 0 <= i < |parts| ==> sep !in parts[i]
    ensures Split(Join(parts, sep), sep) == parts
    decreases |parts|
  {
    SplitWithoutSep(parts[0], sep);
    if |parts| > 1 {
      SplitJoin(parts[1..], sep);
      SplitConcat(parts[0], sep, Join(parts[1..], sep));
      assert [parts[0]] + parts[1..] == parts;
    }
  }

  /** The first piece is the text before the first separator and the
      remaining pieces, joined back, are the text after it. */
  lemma SplitAtFirst(s: string, sep: char)
    requires sep in s
    ensures |Split(s, sep)| > 1
    ensures Split(s, sep)[0] == s[..IndexOf(s, sep)]
    ensures Join(Split(s, sep)[1..], sep) == s[IndexOf(s, sep) + 1..]
  {
    var i := IndexOf(s, sep);
    IndexOfIsFirst(s, sep);
    assert i < |s|;
    SplitUnfold(s, sep);
    assert Split(s, sep)[1..] == Split(s[i + 1..], sep);
    JoinSplit(s[i + 1..], sep);
  }

  /** Number of leading white-space characters of `s`. */
  function LeadingSpace(s: string): (i: nat)
    ensures i <= |s|
    ensures forall k :: 0 <= k < i ==> IsSpace(s[k])
    ensures i < |s| ==> !IsSpace(s[i])
    decreases |s|
  {
    if |s| == 0 || !IsSpace(s[0]) then 0
    else 1 + LeadingSpace(s[1..])
  }

  /** End of `s` once its trailing white space is removed, but not below `lo`. */
  function TrailingSpaceFrom(s: string, lo: nat): (j: nat)
    requires lo <= |s|
    ensures lo <= j <= |s|
    ensures forall k :: j <= k < |s| ==> IsSpace(s[k])
    ensures j > lo ==> !IsSpace(s[j - 1])
    decreases |s|
  {
    if |s| == lo || !IsSpace(s[|s| - 1]) then |s|
    else TrailingSpaceFrom(s[..|s| - 1], lo)
  }

  /** strings.TrimSpace: `s` without its leading and trailing white space. */
  function TrimSpace(s: string): (r: string)
    ensures |r| <= |s|
    ensures |r| > 0 ==> !IsSpace(r[0]) && !IsSpace(r[|r| - 1])
    ensures (forall k :: 0 <= k < |s| ==> IsSpace(s[k])) ==> r == ""
  {
    var i := LeadingSpace(s);
    s[i..TrailingSpaceFrom(s, i)]
  }

  /** TrimSpace keeps exactly the text between the first and the last
      non-space character. */
  lemma TrimSpaceKeepsCore(pre: string, core: string, post: string)
    requires forall k :: 0 <= k < |pre| ==> IsSpace(pre[k])
    requires forall k :: 0 <= k < |post| ==> IsSpace(post[k])
    requires |core| > 0 ==> !IsSpace(core[0]) && !IsSpace(core[|core| - 1])
    ensures TrimSpace(pre + core + post) == core
  {
    var s := pre + core + post;
    var i := LeadingSpace(s);
    if |core| == 0 {
      assert forall k :: 0 <= k < |s| ==> IsSpace(s[k]) by {
        forall k | 0 <= k < |s| ensures IsSpace(s[k]) {
          if k < |pre| { assert s[k] == pre[k]; } else { assert s[k] == post[k - |pre|]; }
        }
      }
    } else {
      assert forall k :: 0 <= k < |pre| ==> s[k] == pre[k];
      assert s[|pre|] == core[0];
      assert i == |pre|;
      var j := TrailingSpaceFrom(s, i);
      var e := |pre| + |core|;
      assert s[e - 1] == core[|core| - 1];
      assert forall k :: e <= k < |s| ==> s[k] == post[k - e];
      assert j == e;
      assert s[i..j] == core;
    }
  }

  /** Trimming twice is trimming once. */
  lemma TrimSpaceIdempotent(s: string)
    ensures TrimSpace(TrimSpace(s)) == TrimSpace(s)
  {
    TrimSpaceKeepsCore("", TrimSpace(s), "");
    assert "" + TrimSpace(s) + "" == TrimSpace(s);
  }

  /** ASCII case folding of one character. */
  function LowerChar(c: char): char
  {
    if 'A' <= c <= 'Z' then (c as int + 32) as char else c
  }

  /** strings.ToLower, restricted to ASCII letters. */
  function ToLower(s: string): (r: string)
    ensures |r| == |s|
    ensures forall i :: 0 <= i < |s| ==> r[i] == LowerChar(s[i])
    ensures forall i :: 0 <= i < |r| ==> !('A' <= r[i] <= 'Z')
  {
    seq(|s|, i requires 0 <= i < |s| => LowerChar(s[i]))
  }

  /** Lowercasing twice is lowercasing once. */
  lemma ToLowerIdempotent(s: string)
    ensures ToLower(ToLower(s)) == ToLower(s)
  {
    var t := ToLower(s);
    assert forall i :: 0 <= i < |t| ==> LowerChar(t[i]) == t[i];
  }

  /** strings.HasSuffix. */
  predicate HasSuffix(s: string, suffix: string)
  {
    |suffix| <= |s| && s[|s| - |suffix|..] == suffix
  }
}
