/** The string operations the kernel relies on: white-space trimming and the byte order of ids. */
module Text {

  /** Unicode white space, as Go's `unicode.IsSpace` defines it. */
  predicate IsSpace(c: char) {
    || '\t' <= c <= '\r'
    || c == ' '
    || c == '\U{85}'
    || c == '\U{A0}'
    || c == '\U{1680}'
    || '\U{2000}' <= c <= '\U{200A}'
    || c == '\U{2028}'
    || c == '\U{2029}'
    || c == '\U{202F}'
    || c == '\U{205F}'
    || c == '\U{3000}'
  }

  function TrimLeft(s: string): (t: string)
    ensures t == "" || !IsSpace(t[0])
    ensures s == "" || !IsSpace(s[0]) ==> t == s
    ensures |t| <= |s|
  {
    if s != "" && IsSpace(s[0]) then TrimLeft(s[1..]) else s
  }

  function TrimRight(s: string): (t: string)
    ensures t == "" || !IsSpace(t[|t| - 1])
    ensures s == "" || !IsSpace(s[|s| - 1]) ==> t == s
    ensures t <= s
  {
    if s != "" && IsSpace(s[|s| - 1]) then TrimRight(s[..|s| - 1]) else s
  }

  function Trim(s: string): string {
    TrimRight(TrimLeft(s))
  }

  /** Trimming leaves alone exactly the strings with no white space at either end. */
  lemma {:induction false} TrimFixpoint(s: string)
    ensures Trim(s) == s <==> s == "" || (!IsSpace(s[0]) && !IsSpace(s[|s| - 1]))
  {
    if s != "" {
      if IsSpace(s[0]) {
        assert |TrimLeft(s)| <= |s[1..]|;
      } else if IsSpace(s[|s| - 1]) {
        assert |TrimRight(s)| <= |s[..|s| - 1]|;
      }
    }
  }

  lemma {:induction false} TrimIdempotent(s: string)
    ensures Trim(Trim(s)) == Trim(s)
  {
    TrimFixpoint(Trim(s));
    var left := TrimLeft(s);
    if TrimRight(left) != "" {
      assert TrimRight(left)[0] == left[0];
    }
  }

  lemma {:induction false} TrimByLeft(s: string, left: string)
    requires TrimLeft(s) == left && left != "" && !IsSpace(left[|left| - 1])
    ensures Trim(s) == left
  {
    hide TrimLeft, IsSpace;
  }

  /** Behind a visible prefix, trimming removes only the white space at the end. */
  lemma {:induction false} TrimBehind(prefix: string, s: string)
    requires prefix != "" && !IsSpace(prefix[0]) && !IsSpace(prefix[|prefix| - 1])
    ensures Trim(prefix + s) == prefix + TrimRight(s)
  {
    hide IsSpace;
    TrimRightBehind(prefix, s);
  }

  lemma {:induction false} TrimRightBehind(prefix: string, s: string)
    requires prefix != "" && !IsSpace(prefix[|prefix| - 1])
    ensures TrimRight(prefix + s) == prefix + TrimRight(s)
  {
    hide IsSpace;
    if s == "" {
      assert prefix + s == prefix;
    } else {
      var n := |s| - 1;
      assert (prefix + s)[|prefix + s| - 1] == s[n];
      if IsSpace(s[n]) {
        assert (prefix + s)[..|prefix + s| - 1] == prefix + s[..n];
        TrimRightBehind(prefix, s[..n]);
      }
    }
  }

  /** Strict lexicographic order, the order of Go's `<` on strings. */
  predicate LexLess(a: string, b: string) {
    if b == "" then false
    else if a == "" then true
    else if a[0] != b[0] then a[0] < b[0]
    else LexLess(a[1..], b[1..])
  }

  lemma {:induction false} LexTotal(a: string, b: string)
    ensures LexLess(a, b) || LexLess(b, a) || a == b
  {
    if a != "" && b != "" && a[0] == b[0] {
      LexTotal(a[1..], b[1..]);
      assert a == [a[0]] + a[1..] && b == [b[0]] + b[1..];
    }
  }

  lemma LexAsymmetric(a: string, b: string)
    ensures !(LexLess(a, b) && LexLess(b, a))
  {
  }

  lemma LexTransitive(a: string, b: string, c: string)
    requires LexLess(a, b) && LexLess(b, c)
    ensures LexLess(a, c)
  {
  }

  /** `i` is where the strings first differ, or where the shorter one ends. */
  predicate Parts(a: string, b: string, i: nat) {
    i <= |a| && i <= |b| && a[..i] == b[..i] && (i < |a| && i < |b| ==> a[i] != b[i])
  }

  /** What the order is: of two strings the one that is cut short comes first, or the one with the
      smaller character where they first differ. */
  lemma {:induction false} LexMeans(a: string, b: string) returns (i: nat)
    requires a != b
    ensures Parts(a, b, i)
    ensures LexLess(a, b) <==> i < |b| && (i == |a| || a[i] < b[i])
  {
    if a != "" && b != "" && a[0] == b[0] {
      assert a == [a[0]] + a[1..] && b == [b[0]] + b[1..];
      var k := LexMeans(a[1..], b[1..]);
      i := k + 1;
      assert a[..i] == [a[0]] + a[1..][..k] && b[..i] == [b[0]] + b[1..][..k];
    } else {
      i := 0;
    }
  }

  /** What trimming does: it takes white space off both ends, and all of it. */
  lemma {:induction false} TrimMeans(s: string) returns (i: nat, j: nat)
    ensures i <= j <= |s| && Trim(s) == s[i..j]
    ensures forall k :: 0 <= k < i || j <= k < |s| ==> IsSpace(s[k])
    ensures i < j ==> !IsSpace(s[i]) && !IsSpace(s[j - 1])
  {
    i := TrimLeftMeans(s);
    var t := TrimRightMeans(s[i..]);
    j := i + t;
    assert s[i..][..t] == s[i..j];
    forall k | j <= k < |s| ensures IsSpace(s[k]) {
      assert s[k] == s[i..][k - i];
    }
  }

  lemma {:induction false} TrimLeftMeans(s: string) returns (i: nat)
    ensures i <= |s| && TrimLeft(s) == s[i..]
    ensures forall k :: 0 <= k < i ==> IsSpace(s[k])
    ensures i < |s| ==> !IsSpace(s[i])
  {
    if s != "" && IsSpace(s[0]) {
      i := TrimLeftMeans(s[1..]);
      i := i + 1;
    } else {
      i := 0;
    }
  }

  lemma {:induction false} TrimRightMeans(s: string) returns (j: nat)
    ensures j <= |s| && TrimRight(s) == s[..j]
    ensures forall k :: j <= k < |s| ==> IsSpace(s[k])
    ensures j > 0 ==> !IsSpace(s[j - 1])
  {
    if s != "" && IsSpace(s[|s| - 1]) {
      j := TrimRightMeans(s[..|s| - 1]);
    } else {
      j := |s|;
    }
  }

  /** The distinct values a list stands for once trimmed; blanks stand for nothing. */
  function TrimmedSet(raw: seq<string>): set<string> {
    if raw == [] then {}
    else
      var last := Trim(raw[|raw| - 1]);
      TrimmedSet(raw[..|raw| - 1]) + if last == "" then {} else {last}
  }

  lemma {:induction false} TrimmedSetStep(raw: seq<string>, i: nat)
    requires i < |raw|
    ensures TrimmedSet(raw[..i + 1]) == TrimmedSet(raw[..i]) + if Trim(raw[i]) == "" then {} else {Trim(raw[i])}
  {
    hide Trim;
    assert raw[..i + 1][..i] == raw[..i];
  }

  lemma {:induction false} TrimmedSetPrefix(raw: seq<string>, i: nat)
    requires i <= |raw|
    ensures TrimmedSet(raw[..i]) <= TrimmedSet(raw)
    decreases |raw|
  {
    hide Trim;
    if i < |raw| {
      assert raw[..|raw| - 1][..i] == raw[..i];
      TrimmedSetPrefix(raw[..|raw| - 1], i);
    } else {
      assert raw[..i] == raw;
    }
  }

  lemma {:induction false} TrimmedSetHas(raw: seq<string>, x: string)
    requires x in raw && Trim(x) != ""
    ensures Trim(x) in TrimmedSet(raw)
  {
    hide Trim;
    var i :| 0 <= i < |raw| && raw[i] == x;
    TrimmedSetStep(raw, i);
    TrimmedSetPrefix(raw, i + 1);
  }

  lemma {:induction false} TrimmedSetSource(raw: seq<string>, key: string) returns (x: string)
    requires key in TrimmedSet(raw)
    ensures x in raw && Trim(x) == key && key != ""
  {
    hide Trim;
    var n := |raw| - 1;
    if key in TrimmedSet(raw[..n]) {
      x := TrimmedSetSource(raw[..n], key);
    } else {
      x := raw[n];
    }
  }
}
