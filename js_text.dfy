/** The JavaScript string and array built-ins that the configuration loader
    calls: String.prototype.trim, startsWith and split with a one-character
    separator, and Array.prototype.join; and FirstIndex, the first-occurrence
    search that split is built on. */
module JsText {
  import opened Wrappers

  /** The code points that String.prototype.trim removes: the WhiteSpace and
      LineTerminator productions of ECMA-262 (section 12.2 and 12.3 of the
      2020 edition), that is tab, vertical tab, form feed, the byte-order mark,
      every space separator of Unicode category Zs, and LF, CR, LS and PS. */
  predicate IsSpace(c: char) {
    var n := c as int;
    n == 0x09 || n == 0x0A || n == 0x0B || n == 0x0C || n == 0x0D || n == 0x20
    || n == 0xA0 || n == 0x1680 || (0x2000 <= n <= 0x200A) || n == 0x2028
    || n == 0x2029 || n == 0x202F || n == 0x205F || n == 0x3000 || n == 0xFEFF
  }

  predicate AllSpace(s: string) {
    forall i :: 0 <= i < |s| ==> IsSpace(s[i])
  }

  /** Neither end of s is white space. */
  predicate Trimmed(s: string) {
    s == [] || (!IsSpace(s[0]) && !IsSpace(s[|s| - 1]))
  }

  /** s with its leading white space removed: a suffix of s that does not
      start with white space (TrimStartDropsSpace: what it drops is white
      space). */
  function TrimStart(s: string): (r: string)
    ensures |r| <= |s| && r == s[|s| - |r|..]
    ensures r == [] || !IsSpace(r[0])
  {
    if s != [] && IsSpace(s[0]) then TrimStart(s[1..]) else s
  }

  /** s with its trailing white space removed: a prefix of s that does not
      end with white space (TrimEndDropsSpace: what it drops is white space). */
  function TrimEnd(s: string): (r: string)
    ensures |r| <= |s| && r == s[..|r|]
    ensures r == [] || !IsSpace(r[|r| - 1])
  {
    if s != [] && IsSpace(s[|s| - 1]) then TrimEnd(s[..|s| - 1]) else s
  }

  lemma {:induction false} TrimStartDropsSpace(s: string)
    ensures AllSpace(s[..|s| - |TrimStart(s)|])
  {
    if s != [] && IsSpace(s[0]) {
      TrimStartDropsSpace(s[1..]);
      var k := |s| - |TrimStart(s)|;
      forall i | 0 <= i < k ensures IsSpace(s[..k][i]) {
        if i > 0 { assert s[..k][i] == s[1..][..k - 1][i - 1]; }
      }
    }
  }

  lemma {:induction false} TrimEndDropsSpace(s: string)
    ensures AllSpace(s[|TrimEnd(s)|..])
  {
    if s != [] && IsSpace(s[|s| - 1]) {
      var s' := s[..|s| - 1];
      TrimEndDropsSpace(s');
      var k := |TrimEnd(s)|;
      forall i | 0 <= i < |s| - k ensures IsSpace(s[k..][i]) {
        if i < |s| - 1 - k { assert s[k..][i] == s'[k..][i]; }
      }
    }
  }

  /** String.prototype.trim. */
  function Trim(s: string): (r: string)
    ensures Trimmed(r)
    ensures |r| <= |s|
  {
    var t := TrimStart(s);
    var r := TrimEnd(t);
    assert r != [] ==> r[0] == t[0];
    r
  }

  /** Trim gives the empty string exactly for a string of white space only. */
  lemma TrimEmptyIffSpace(s: string)
    ensures Trim(s) == "" <==> AllSpace(s)
  {
    var t := TrimStart(s);
    var r := TrimEnd(t);
    var k := |s| - |t|;
    assert t != [] ==> s[k] == t[0];
    assert r != [] ==> r[0] == t[0];
    if r == "" {
      TrimEndDropsSpace(t);
      assert t[|r|..] == t;
      assert t == [];
      TrimStartDropsSpace(s);
      assert s[..|s|] == s;
    }
  }

  /** Trim keeps a contiguous middle part of s: the text after the leading
      white space, up to the trailing white space. */
  lemma TrimIsInfix(s: string)
    ensures var k := |s| - |TrimStart(s)|;
            k + |Trim(s)| <= |s| && s[k..k + |Trim(s)|] == Trim(s)
  {
    var t := TrimStart(s);
    var r := TrimEnd(t);
    var k := |s| - |t|;
    InfixOfSuffix(s, k, t, r);
  }

  /** What Trim drops on either side of its result is white space. */
  lemma TrimDropsSpace(s: string)
    ensures AllSpace(s[..|s| - |TrimStart(s)|])
    ensures AllSpace(s[|s| - |TrimStart(s)| + |Trim(s)|..])
  {
    var t := TrimStart(s);
    TrimStartDropsSpace(s);
    var r := TrimEnd(t);
    var k := |s| - |t|;
    TrimEndDropsSpace(t);
    InfixOfSuffix(s, k, t, r);
  }

  /** A prefix r of the suffix t of s that starts at k: r sits in s at k, and
      what follows it in s is what follows it in t. */
  lemma InfixOfSuffix(s: string, k: nat, t: string, r: string)
    requires k <= |s| && t == s[k..] && |r| <= |t| && r == t[..|r|]
    ensures k + |r| <= |s| && s[k..k + |r|] == r && s[k + |r|..] == t[|r|..]
  {
  }

  lemma {:induction false} TrimStartOfSpaces(a: string, u: string)
    requires AllSpace(a)
    requires u == [] || !IsSpace(u[0])
    ensures TrimStart(a + u) == u
  {
    if a != [] {
      assert (a + u)[1..] == a[1..] + u;
      TrimStartOfSpaces(a[1..], u);
    }
  }

  lemma {:induction false} TrimEndOfSpaces(u: string, b: string)
    requires AllSpace(b)
    requires u == [] || !IsSpace(u[|u| - 1])
    ensures TrimEnd(u + b) == u
  {
    if b != [] {
      var b' := b[..|b| - 1];
      assert (u + b)[..|u + b| - 1] == u + b';
      TrimEndOfSpaces(u, b');
    }
  }

  /** Trim removes exactly the white space around a text whose ends are not
      white space: the decomposition of a string into leading space, trimmed
      core and trailing space is unique, and Trim finds its core. */
  lemma TrimOfPadded(w: string, a: string, t: string, b: string)
    requires w == a + t + b && AllSpace(a) && AllSpace(b) && Trimmed(t)
    ensures Trim(w) == t
  {
    if t == [] {
      TrimEmptyIffSpace(w);
      assert AllSpace(w) by {
        forall i | 0 <= i < |w| ensures IsSpace(w[i]) {
          if i >= |a| { assert w[i] == b[i - |a|]; }
        }
      }
    } else {
      assert w == a + (t + b);
      TrimStartOfSpaces(a, t + b);
      TrimEndOfSpaces(t, b);
    }
  }

  /** Trimming twice is trimming once. */
  lemma TrimIdempotent(s: string)
    ensures Trim(Trim(s)) == Trim(s)
  {
    var t := Trim(s);
    TrimOfPadded(t, "", t, "");
  }

  /** String.prototype.startsWith. */
  predicate StartsWith(s: string, prefix: string) {
    |prefix| <= |s| && s[..|prefix|] == prefix
  }

  /** String.prototype.indexOf for one character, with None for JavaScript's -1. */
  function FirstIndex(s: string, c: char): (r: Option<nat>)
    ensures r.None? <==> c !in s
    ensures r.Some? ==> r.value < |s| && s[r.value] == c && c !in s[..r.value]
  {
    if s == [] then None
    else if s[0] == c then Some(0)
    else match FirstIndex(s[1..], c)
      case None => None
      case Some(i) => assert s[..i + 1] == [s[0]] + s[1..][..i]; Some(i + 1)
  }

  /** The first occurrence is the one with no occurrence before it. */
  lemma FirstIndexAt(s: string, c: char, i: nat)
    requires i < |s| && s[i] == c
    requires forall j :: 0 <= j < i ==> s[j] != c
    ensures FirstIndex(s, c) == Some(i)
  {
  }

  /** Array.prototype.join: the parts with sep between neighbours; "" for no parts. */
  function Join(parts: seq<string>, sep: char): string {
    if |parts| == 0 then ""
    else if |parts| == 1 then parts[0]
    else parts[0] + [sep] + Join(parts[1..], sep)
  }

  /** String.prototype.split with a one-character separator and no limit:
      the separator-free pieces between consecutive separators, including
      the empty ones at either end. */
  function Split(s: string, sep: char): (r: seq<string>)
    ensures |r| >= 1
    ensures forall k :: 0 <= k < |r| ==> sep !in r[k]
    decreases |s|
  {
    match FirstIndex(s, sep)
    case None => [s]
    case Some(i) => [s[..i]] + Split(s[i + 1..], sep)
  }

  /** Joining the pieces of a split with the separator gives the text back. */
  lemma {:induction false} JoinSplit(s: string, sep: char)
    ensures Join(Split(s, sep), sep) == s
    decreases |s|
  {
    match FirstIndex(s, sep)
    case None =>
    case Some(i) =>
      var rest := Split(s[i + 1..], sep);
      JoinSplit(s[i + 1..], sep);
      assert Split(s, sep)[1..] == rest;
      assert s == s[..i] + [sep] + s[i + 1..];
  }

  /** Text before the first separator splits off as the first piece. */
  lemma SplitCons(p: string, tail: string, sep: char)
    requires sep !in p
    ensures Split(p + [sep] + tail, sep) == [p] + Split(tail, sep)
  {
    var s := p + [sep] + tail;
    forall j | 0 <= j < |p| ensures s[j] != sep {
      assert s[j] == p[j];
    }
    FirstIndexAt(s, sep, |p|);
    assert s[..|p|] == p && s[|p| + 1..] == tail;
  }

  /** Splitting a join of separator-free parts gives the parts back. */
  lemma {:induction false} SplitJoin(parts: seq<string>, sep: char)
    requires |parts| >= 1
    requires forall k :: 0 <= k < |parts| ==> sep !in parts[k]
    ensures Split(Join(parts, sep), sep) == parts
  {
    if |parts| > 1 {
      var rest := parts[1..];
      SplitCons(parts[0], Join(rest, sep), sep);
      SplitJoin(rest, sep);
    }
  }

  /** The first piece of a split is the text before the first separator, and
      the remaining pieces join back to the text after it. */
  lemma SplitAtFirst(s: string, sep: char)
    ensures FirstIndex(s, sep).None? ==> Split(s, sep) == [s]
    ensures FirstIndex(s, sep).Some? ==>
      var i := FirstIndex(s, sep).value;
      |Split(s, sep)| >= 2 && Split(s, sep)[0] == s[..i]
      && Join(Split(s, sep)[1..], sep) == s[i + 1..]
  {
    match FirstIndex(s, sep)
    case None =>
    case Some(i) =>
      var rest := Split(s[i + 1..], sep);
      JoinSplit(s[i + 1..], sep);
      assert Split(s, sep)[1..] == rest;
  }
}
