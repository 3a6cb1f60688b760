/**
 * The POSIX path operations the file manager relies on (`os.path.split`,
 * `basename`, `dirname`, `join`, `splitext`, `str.split(".")[0]`), written
 * out over strings so that the core's naming decisions can be stated exactly.
 */
module PosixPath {

  const Sep: char := '/'

  /** `s.rfind(c)`: the index of the last `c` in `s`, or -1. */
  function LastIndexOf(s: string, c: char): (r: int)
    ensures -1 <= r < |s|
    ensures r >= 0 ==> s[r] == c
    ensures forall j :: r < j < |s| ==> s[j] != c
  {
    if |s| == 0 then -1
    else if s[|s| - 1] == c then |s| - 1
    else LastIndexOf(s[..|s| - 1], c)
  }

  /** `s.find(c)`: the index of the first `c` in `s`, or -1. */
  function FirstIndexOf(s: string, c: char): (r: int)
    ensures -1 <= r < |s|
    ensures r >= 0 ==> s[r] == c
    ensures forall j :: 0 <= j < |s| && (r < 0 || j < r) ==> s[j] != c
  {
    if |s| == 0 then -1
    else if s[0] == c then 0
    else var k := FirstIndexOf(s[1..], c); if k < 0 then -1 else k + 1
  }

  /** Every character of `s` is `c`. */
  predicate AllChar(s: string, c: char)
  {
    forall j :: 0 <= j < |s| ==> s[j] == c
  }

  /** `s.rstrip(c)`: `s` without its trailing run of `c`. */
  function RStrip(s: string, c: char): (r: string)
    ensures r <= s
    ensures r == [] || r[|r| - 1] != c
    ensures forall j :: |r| <= j < |s| ==> s[j] == c
  {
    if |s| == 0 || s[|s| - 1] != c then s else RStrip(s[..|s| - 1], c)
  }

  /**
   * `os.path.split(p)`: the tail is everything after the last separator,
   * the head everything before it, with trailing separators removed unless
   * the head consists of separators only.
   */
  function Split(p: string): (string, string)
  {
    var i := LastIndexOf(p, Sep) + 1;
    var head, tail := p[..i], p[i..];
    if head != [] && !AllChar(head, Sep) then (RStrip(head, Sep), tail) else (head, tail)
  }

  /** `os.path.basename(p)`, which is `os.path.split(p)[1]`. */
  function Basename(p: string): string
  {
    Split(p).1
  }

  /** `os.path.dirname(p)`, which is `os.path.split(p)[0]`. */
  function Dirname(p: string): string
  {
    Split(p).0
  }

  /**
   * The tail of a split is everything after the last separator (the whole
   * path when there is none). The head is what precedes the last component
   * with its trailing separators removed, unless it consists of separators
   * only; it is empty exactly when the path has no separator.
   */
  lemma SplitParts(p: string)
    ensures |Basename(p)| <= |p| && p == p[..|p| - |Basename(p)|] + Basename(p)
    ensures Sep !in Basename(p)
    ensures Sep in p ==> |Basename(p)| < |p| && p[|p| - |Basename(p)| - 1] == Sep
    ensures Sep !in p ==> Basename(p) == p
    ensures var h := p[..|p| - |Basename(p)|];
            Dirname(p) <= h &&
            (forall j :: |Dirname(p)| <= j < |h| ==> h[j] == Sep) &&
            (AllChar(h, Sep) ==> Dirname(p) == h) &&
            (!AllChar(h, Sep) ==> Dirname(p) != [] && Dirname(p)[|Dirname(p)| - 1] != Sep)
    ensures Sep in p <==> Dirname(p) != []
  {
    var i := LastIndexOf(p, Sep) + 1;
    assert p[i..] == Basename(p);
    if Sep in p {
      var k :| 0 <= k < |p| && p[k] == Sep;
      assert i > 0;
      assert p[..i][i - 1] == Sep;
    }
  }

  /** `os.path.join(a, b)` for one further component. */
  function Join(a: string, b: string): (r: string)
    ensures b != [] && b[0] == Sep ==> r == b
    ensures a == [] ==> r == b
  {
    if b != [] && b[0] == Sep then b
    else if a == [] || a[|a| - 1] == Sep then a + b
    else a + [Sep] + b
  }

  /**
   * Below a non-empty base, a relative component is appended after exactly
   * one separator: the base's own last one, or one added.
   */
  lemma JoinParts(a: string, b: string)
    requires a != [] && (b == [] || b[0] != Sep)
    ensures var r := Join(a, b);
            |a| + |b| <= |r| <= |a| + |b| + 1 &&
            r[..|a|] == a && r[|r| - |b|..] == b && r[|r| - |b| - 1] == Sep &&
            (a[|a| - 1] == Sep <==> |r| == |a| + |b|)
  {
  }

  /** `os.path.join(a, *parts)`: folds `Join` from the left. */
  function JoinAll(a: string, parts: seq<string>): string
    decreases |parts|
  {
    if parts == [] then a else JoinAll(Join(a, parts[0]), parts[1..])
  }

  /** A name as `os.listdir` and `os.walk` report it: non-empty, no separator. */
  predicate IsName(s: string)
  {
    s != [] && Sep !in s
  }

  /** The relative path made of `parts`: the names joined by single separators. */
  function Relative(parts: seq<string>): string
  {
    JoinAll("", parts)
  }

  /** Joining a directory name to a relative path puts exactly one separator between them. */
  lemma JoinUnderRoot(root: string, rel: string)
    requires root != [] && Sep !in root
    requires rel != [] && rel[0] != Sep
    ensures Join(root, rel) == root + [Sep] + rel
  {
    assert root[|root| - 1] in root;
  }

  /** Joining plain names never starts with a separator when the base does not. */
  lemma {:induction false} JoinAllNoLeadingSep(a: string, parts: seq<string>)
    requires forall k :: 0 <= k < |parts| ==> IsName(parts[k])
    requires a == [] || a[0] != Sep
    requires a != [] || parts != []
    ensures JoinAll(a, parts) != [] && JoinAll(a, parts)[0] != Sep
    decreases |parts|
  {
    if parts != [] {
      var b := parts[0];
      assert IsName(b);
      assert b[0] in b;
      var j := Join(a, b);
      assert j != [] && j[0] != Sep;
      JoinAllNoLeadingSep(j, parts[1..]);
    }
  }

  /**
   * The extension `os.path.splitext(p)[1]`: from the last dot of the last
   * component, provided that component has a character other than a dot
   * before it (so `.bashrc` has no extension); otherwise empty.
   */
  function Ext(p: string): (e: string)
    ensures e == [] || (e[0] == '.' && '.' !in e[1..] && Sep !in e && |e| < |p| && e == p[|p| - |e|..])
    ensures e != [] <==> exists k, d :: LastIndexOf(p, Sep) < k < d < |p| && p[k] != '.' && p[d] == '.'
  {
    var sepIndex := LastIndexOf(p, Sep);
    var dotIndex := LastIndexOf(p, '.');
    if dotIndex > sepIndex && exists k :: sepIndex + 1 <= k < dotIndex && p[k] != '.' then
      assert forall j :: dotIndex < j < |p| ==> p[dotIndex..][j - dotIndex] == p[j];
      p[dotIndex..]
    else []
  }

  /** `s.replace(c, "")`: `s` with every `c` removed. */
  function Remove(s: string, c: char): (r: string)
    ensures c !in r
    ensures |r| <= |s|
  {
    if s == [] then [] else (if s[0] == c then [] else [s[0]]) + Remove(s[1..], c)
  }

  /** `name.split(".")[0]`: the part of `name` before its first dot. */
  function Stem(name: string): (r: string)
    ensures r <= name && '.' !in r
    ensures r != name ==> name[|r|] == '.'
  {
    var k := FirstIndexOf(name, '.');
    if k < 0 then name else name[..k]
  }
}
