/** Vocabulary shared by the backend and the frontend model: optional values
    and results, the Python exceptions that cross function boundaries, and the
    string and sequence operations both halves of the application rely on. */
module Common {

  datatype Option<+T> = None | Some(value: T)

  datatype Result<+T, +E> = Ok(value: T) | Err(error: E)

  /** A Python exception; `msg` is what `str(e)` yields for it. */
  datatype Exception =
    | FileNotFoundError(msg: string)
    | KeyError(msg: string)
    | ValueError(msg: string)
    | ValidationError(msg: string)
    | RuntimeError(msg: string)
    | OSError(msg: string)

  predicate StartsWith(s: string, prefix: string)
  {
    |prefix| <= |s| && s[..|prefix|] == prefix
  }

  predicate EndsWith(s: string, suffix: string)
  {
    |suffix| <= |s| && s[|s| - |suffix|..] == suffix
  }

  /** `", ".join(parts)` */
  function Join(parts: seq<string>, sep: string): string
  {
    if parts == [] then ""
    else if |parts| == 1 then parts[0]
    else parts[0] + sep + Join(parts[1..], sep)
  }

  // ---------------------------------------------------------------------
  // Case mapping. Both `str.lower()` and `String.prototype.toLowerCase()`
  // are modelled on the ASCII letters only.
  // ---------------------------------------------------------------------

  function LowerChar(c: char): char
  {
    if 'A' <= c <= 'Z' then (c as int + 32) as char else c
  }

  function UpperChar(c: char): char
  {
    if 'a' <= c <= 'z' then (c as int - 32) as char else c
  }

  function Lower(s: string): (r: string)
    ensures |r| == |s|
    ensures forall i :: 0 <= i < |s| ==> r[i] == LowerChar(s[i])
  {
    seq(|s|, i requires 0 <= i < |s| => LowerChar(s[i]))
  }

  lemma LowerIdempotent(s: string)
    ensures Lower(Lower(s)) == Lower(s)
  {
  }

  lemma LowerAppend(a: string, b: string)
    ensures Lower(a + b) == Lower(a) + Lower(b)
  {
  }

  lemma LowerSlice(s: string, i: int, j: int)
    requires 0 <= i <= j <= |s|
    ensures Lower(s)[i..j] == Lower(s[i..j])
  {
  }

  // ---------------------------------------------------------------------
  // Number formatting
  // ---------------------------------------------------------------------

  function DigitChar(d: nat): char
    requires d < 10
  {
    ('0' as int + d) as char
  }

  /** Decimal notation of a natural number, without leading zeros. */
  function NatToString(n: nat): (s: string)
    ensures |s| >= 1
  {
    if n < 10 then [DigitChar(n)] else NatToString(n / 10) + [DigitChar(n % 10)]
  }

  /** Python's `str(i)` on an int. */
  function IntToString(i: int): string
  {
    if i < 0 then "-" + NatToString(-i) else NatToString(i)
  }

  /** `Number.prototype.toFixed(0)` on an exact real: round half away from
      zero, keeping the minus sign of a negative input ("-0" included). */
  function ToFixed0(x: real): string
  {
    if x < 0.0 then "-" + NatToString((0.5 - x).Floor) else NatToString((x + 0.5).Floor)
  }

  // ---------------------------------------------------------------------
  // Paths
  // ---------------------------------------------------------------------

  function LastIndexOf(s: string, c: char): (r: int)
    ensures -1 <= r < |s|
    ensures 0 <= r ==> s[r] == c
    ensures forall j :: r < j < |s| ==> s[j] != c
  {
    if s == [] then -1
    else if s[|s| - 1] == c then |s| - 1
    else LastIndexOf(s[..|s| - 1], c)
  }

  /** The final component of a '/'-separated path (`PurePath.name`). */
  function FinalComponent(path: string): string
  {
    path[LastIndexOf(path, '/') + 1..]
  }

  /** `PurePath.suffix`: the final component from its last '.', provided that
      dot is neither the component's first nor its last character; otherwise
      the empty string. */
  function Suffix(path: string): (r: string)
    ensures r == "" || (2 <= |r| && r[0] == '.' && '.' !in r[1..])
  {
    NameSuffix(FinalComponent(path))
  }

  function NameSuffix(name: string): (r: string)
    ensures r == "" || (2 <= |r| && r[0] == '.' && '.' !in r[1..])
  {
    var i := LastIndexOf(name, '.');
    if 0 < i < |name| - 1 then name[i..] else ""
  }

  /** A dot at `i` starts the suffix of `name`: it is neither the first nor
      the last character, and no dot follows it. */
  predicate DotStartsSuffix(name: string, i: int)
  {
    0 < i < |name| - 1 && name[i] == '.' && '.' !in name[i + 1..]
  }

  /** The dot that starts a suffix is the last dot. */
  lemma DotStartsSuffixIsLast(name: string, i: int)
    requires DotStartsSuffix(name, i)
    ensures LastIndexOf(name, '.') == i
  {
  }

  /** A name's suffix starts at the one dot that starts a suffix, and is
      empty when no dot does. */
  lemma NameSuffixFromDot(name: string)
    ensures (exists i :: DotStartsSuffix(name, i)) ==> exists i :: DotStartsSuffix(name, i) && NameSuffix(name) == name[i..]
    ensures (forall i :: !DotStartsSuffix(name, i)) ==> NameSuffix(name) == ""
  {
    var r := LastIndexOf(name, '.');
    if exists i :: DotStartsSuffix(name, i) {
      var i :| DotStartsSuffix(name, i);
      DotStartsSuffixIsLast(name, i);
    }
    if 0 < r < |name| - 1 {
      assert forall k {:trigger name[r + 1..][k]} :: 0 <= k < |name| - r - 1 ==> name[r + 1..][k] == name[r + 1 + k];
      assert DotStartsSuffix(name, r);
    }
  }

  lemma {:induction false} LastIndexOfLower(s: string, c: char)
    requires c == LowerChar(c) && !('a' <= c <= 'z')
    ensures LastIndexOf(Lower(s), c) == LastIndexOf(s, c)
  {
    if s != [] {
      var n := |s| - 1;
      LowerSlice(s, 0, n);
      LastIndexOfLower(s[..n], c);
    }
  }

  lemma FinalComponentLower(path: string)
    ensures FinalComponent(Lower(path)) == Lower(FinalComponent(path))
  {
    LastIndexOfLower(path, '/');
    LowerSlice(path, LastIndexOf(path, '/') + 1, |path|);
  }

  lemma NameSuffixLower(name: string)
    ensures NameSuffix(Lower(name)) == Lower(NameSuffix(name))
  {
    var i := LastIndexOf(name, '.');
    var lowered := Lower(name);
    LastIndexOfLower(name, '.');
    assert LastIndexOf(lowered, '.') == i && |lowered| == |name|;
    if 0 < i < |name| - 1 {
      assert NameSuffix(lowered) == lowered[i..];
      assert NameSuffix(name) == name[i..];
      LowerSlice(name, i, |name|);
    } else {
      assert NameSuffix(lowered) == "" && NameSuffix(name) == "";
      assert Lower("") == "";
    }
  }

  /** Lower-casing a path and taking its suffix commute. */
  lemma SuffixLower(path: string)
    ensures Suffix(Lower(path)) == Lower(Suffix(path))
  {
    FinalComponentLower(path);
    NameSuffixLower(FinalComponent(path));
  }

  lemma AppendAssociates<T>(a: seq<T>, b: seq<T>, c: seq<T>)
    ensures (a + b) + c == a + (b + c)
  {
  }

  // ---------------------------------------------------------------------
  // Order-preserving selection
  // ---------------------------------------------------------------------

  /** `a` is obtained from `b` by deleting elements, keeping the order. */
  ghost predicate IsSubsequence<T>(a: seq<T>, b: seq<T>)
    decreases |b|
  {
    if b == [] then a == []
    else (a != [] && a[0] == b[0] && IsSubsequence(a[1..], b[1..])) || IsSubsequence(a, b[1..])
  }

  /** A list comprehension `[x for x in s if p(x)]`. */
  function Filter<T>(s: seq<T>, p: T -> bool): (r: seq<T>)
    ensures |r| <= |s|
    ensures forall x :: x in r ==> x in s && p(x)
  {
    if s == [] then [] else (if p(s[0]) then [s[0]] else []) + Filter(s[1..], p)
  }

  lemma {:induction false} FilterIsSubsequence<T>(s: seq<T>, p: T -> bool)
    ensures IsSubsequence(Filter(s, p), s)
  {
    if s != [] {
      FilterIsSubsequence(s[1..], p);
      var f := Filter(s, p);
      if p(s[0]) {
        assert f == [s[0]] + Filter(s[1..], p);
        assert f[1..] == Filter(s[1..], p);
      } else {
        assert f == Filter(s[1..], p);
      }
    }
  }

  /** The comprehension keeps every element satisfying `p`, with its
      multiplicity, and no other. */
  lemma {:induction false} FilterKeepsExactly<T>(s: seq<T>, p: T -> bool)
    ensures forall x :: multiset(Filter(s, p))[x] == if p(x) then multiset(s)[x] else 0
  {
    if s != [] {
      FilterKeepsExactly(s[1..], p);
      assert s == [s[0]] + s[1..];
    }
  }

  lemma {:induction false} FilterKeepsAll<T>(s: seq<T>, p: T -> bool)
    requires forall x :: x in s ==> p(x)
    ensures Filter(s, p) == s
  {
    if s != [] {
      FilterKeepsAll(s[1..], p);
    }
  }

  lemma FilterIdempotent<T>(s: seq<T>, p: T -> bool)
    ensures Filter(Filter(s, p), p) == Filter(s, p)
  {
    FilterKeepsAll(Filter(s, p), p);
  }

  lemma {:induction false} FilterAppend<T>(a: seq<T>, b: seq<T>, p: T -> bool)
    ensures Filter(a + b, p) == Filter(a, p) + Filter(b, p)
  {
    if a != [] {
      assert (a + b)[1..] == a[1..] + b;
      FilterAppend(a[1..], b, p);
    } else {
      assert a + b == b;
    }
  }
}
