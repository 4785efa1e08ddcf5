/**
 * The version comparison of the release check against the precedence of section 11 of Semantic
 * Versioning 2.0.0.  Build metadata is not part of a parsed version.  A version holds its numbers as they are
 * written; the comparison sees them rounded to double precision, as `Number` does.
 */
module Semver {
  import opened Common

  datatype Version = Version(major: nat, minor: nat, patch: nat, prerelease: seq<string>)

  // ----- identifiers -----

  predicate IsDigit(c: char) { '0' <= c <= '9' }

  predicate IsNumeric(s: string) { s != [] && forall i :: 0 <= i < |s| ==> IsDigit(s[i]) }

  function Digit(c: char): nat
    requires IsDigit(c)
  {
    (c as int) - ('0' as int)
  }

  function Value(s: string): nat
    requires forall i :: 0 <= i < |s| ==> IsDigit(s[i])
  {
    if s == [] then 0 else Value(s[..|s| - 1]) * 10 + Digit(s[|s| - 1])
  }

  /** Section 9: a numeric identifier has no leading zero. */
  predicate CanonicalId(s: string) { IsNumeric(s) && |s| > 1 ==> s[0] != '0' }

  predicate Canonical(v: Version) { forall i :: 0 <= i < |v.prerelease| ==> CanonicalId(v.prerelease[i]) }

  /** The code-unit order of strings. */
  predicate TextLower(x: string, y: string) {
    y != [] && (x == [] || x[0] < y[0] || (x[0] == y[0] && TextLower(x[1..], y[1..])))
  }

  /** The first position at which two strings differ. */
  predicate Parts(x: string, y: string, n: nat) { n < |x| && n < |y| && x[..n] == y[..n] && x[n] != y[n] }

  ghost predicate LowerAtFirst(x: string, y: string) { exists n: nat :: Parts(x, y, n) && x[n] < y[n] }

  lemma {:induction false} SharedHead(x: string, y: string, n: nat)
    requires x != [] && y != [] && x[0] == y[0]
    ensures Parts(x, y, n + 1) <==> Parts(x[1..], y[1..], n)
    ensures !Parts(x, y, 0)
  {
    if n + 1 < |x| && n + 1 < |y| {
      assert x[..n + 1] == [x[0]] + x[1..][..n] && y[..n + 1] == [y[0]] + y[1..][..n];
    }
  }

  lemma {:induction false} SharedHeadLower(x: string, y: string)
    requires x != [] && y != [] && x[0] == y[0]
    ensures LowerAtFirst(x, y) <==> LowerAtFirst(x[1..], y[1..])
    ensures x < y <==> x[1..] < y[1..]
  {
    if LowerAtFirst(x, y) {
      var n: nat :| Parts(x, y, n) && x[n] < y[n];
      SharedHead(x, y, n - 1);
      assert x[1..][n - 1] < y[1..][n - 1];
    }
    if LowerAtFirst(x[1..], y[1..]) {
      var n: nat :| Parts(x[1..], y[1..], n) && x[1..][n] < y[1..][n];
      SharedHead(x, y, n);
    }
    assert x == [x[0]] + x[1..] && y == [y[0]] + y[1..];
  }

  /** One string is below another exactly when it is a proper prefix or has the lower character at the first difference. */
  lemma {:induction false} TextLowerIff(x: string, y: string)
    ensures TextLower(x, y) <==> x < y || LowerAtFirst(x, y)
    decreases |x|
  {
    if x != [] && y != [] {
      if x[0] == y[0] {
        SharedHeadLower(x, y);
        TextLowerIff(x[1..], y[1..]);
      } else {
        assert Parts(x, y, 0);
      }
    }
  }

  // ----- section 11 -----

  /** Numeric identifiers by value, others by text, and a numeric one below any other. */
  predicate IdLower(x: string, y: string) {
    if IsNumeric(x) && IsNumeric(y) then Value(x) < Value(y)
    else if IsNumeric(x) || IsNumeric(y) then IsNumeric(x)
    else TextLower(x, y)
  }

  /** Identifier by identifier from the left; when all preceding ones are equal, more identifiers win. */
  predicate PrereleaseLower(p: seq<string>, q: seq<string>) {
    q != [] && (p == [] || IdLower(p[0], q[0]) || (p[0] == q[0] && PrereleaseLower(p[1..], q[1..])))
  }

  predicate SameCore(a: Version, b: Version) { a.major == b.major && a.minor == b.minor && a.patch == b.patch }

  predicate CoreLower(a: Version, b: Version) {
    a.major < b.major || (a.major == b.major && (a.minor < b.minor || (a.minor == b.minor && a.patch < b.patch)))
  }

  /** The precedence: core first, then a prerelease below its release, then the prerelease identifiers. */
  predicate Lower(a: Version, b: Version) {
    || CoreLower(a, b)
    || (SameCore(a, b) && a.prerelease != [] && (b.prerelease == [] || PrereleaseLower(a.prerelease, b.prerelease)))
  }

  /** The chain of section 11: 1.0.0-alpha < -alpha.1 < -alpha.beta < -beta < -beta.2 < -beta.11 < -rc.1 < 1.0.0. */
  lemma SectionElevenExample()
    ensures Lower(Version(1, 0, 0, ["alpha"]), Version(1, 0, 0, ["alpha", "1"]))
    ensures Lower(Version(1, 0, 0, ["alpha", "1"]), Version(1, 0, 0, ["alpha", "beta"]))
    ensures Lower(Version(1, 0, 0, ["alpha", "beta"]), Version(1, 0, 0, ["beta"]))
    ensures Lower(Version(1, 0, 0, ["beta"]), Version(1, 0, 0, ["beta", "2"]))
    ensures Lower(Version(1, 0, 0, ["beta", "2"]), Version(1, 0, 0, ["beta", "11"]))
    ensures Lower(Version(1, 0, 0, ["beta", "11"]), Version(1, 0, 0, ["rc", "1"]))
    ensures Lower(Version(1, 0, 0, ["rc", "1"]), Version(1, 0, 0, []))
  {
    var a, b, r := "alpha", "beta", "rc";
    assert !IsDigit(a[0]) && !IsDigit(b[0]) && !IsDigit(r[0]);
    assert a[0] < b[0] < r[0];
    SmallValues();
    NextIdentifier(a, [], ["1"]);
    NextIdentifier(a, ["1"], [b]);
    NextIdentifier(b, [], ["2"]);
    NextIdentifier(b, ["2"], ["11"]);
  }

  /** Small numbers. */
  lemma SmallValues()
    ensures IsNumeric("1") && IsNumeric("2") && IsNumeric("11") && Value("2") == 2 && Value("11") == 11
  {
    var s := "11";
    assert s[..1] == "1" && Value("1") == 1;
  }

  lemma NextIdentifier(x: string, p: seq<string>, q: seq<string>)
    ensures PrereleaseLower(p, q) ==> PrereleaseLower([x] + p, [x] + q)
  {
    assert ([x] + p)[1..] == p && ([x] + q)[1..] == q;
  }

  // ----- numbers in double precision -----

  const EXACT_LIMIT: nat := 0x20_0000_0000_0000   // 2^53

  function Square(n: nat): (s: nat)
    ensures s >= n
  {
    n * n
  }

  /** 2^1024: from here on a double is Infinity, and all infinities are equal. */
  function Infinite(): nat { Square(Square(Square(Square(EXACT_LIMIT * 2048)))) }

  /** The distance of neighbouring doubles around `n`. */
  function Unit(n: nat): (u: nat)
    ensures u >= 1
  {
    if n < EXACT_LIMIT then 1 else 2 * Unit(n / 2)
  }

  /** `q` units and `r` more, to the nearer multiple of the unit, ties to the even one. */
  function Rounded(q: nat, r: nat, u: nat): nat { if 2 * r < u || (2 * r == u && q % 2 == 0) then q * u else q * u + u }

  /** The nearest double before overflow. */
  function Nearest(n: nat): nat { Rounded(Quotient(n, Unit(n)), Remainder(n, Unit(n)), Unit(n)) }

  function Quotient(n: nat, u: nat): nat
    requires u >= 1
  {
    n / u
  }

  function Remainder(n: nat, u: nat): nat
    requires u >= 1
  {
    n % u
  }

  /** Number(text) for a text of digits with this value. */
  function Number(n: nat): (d: nat)
    ensures n < EXACT_LIMIT ==> d == n
  {
    var d := Nearest(n);
    if d < Infinite() then d else Infinite()
  }

  lemma {:induction false} UnitBounds(n: nat)
    ensures n < EXACT_LIMIT * Unit(n) && (n >= EXACT_LIMIT ==> EXACT_LIMIT / 2 * Unit(n) <= n)
  {
    if n >= EXACT_LIMIT { UnitBounds(n / 2); }
  }

  lemma {:induction false} UnitGrows(n: nat, m: nat)
    requires n <= m
    ensures Unit(n) == Unit(m) || 2 * Unit(n) <= Unit(m)
  {
    if n >= EXACT_LIMIT { UnitGrows(n / 2, m / 2); }
  }

  lemma {:induction false} MulGrows(p: nat, q: nat, u: nat)
    requires p < q && u >= 1
    ensures p * u + u <= q * u
    decreases q
  {
    assert q * u == (q - 1) * u + u;
    if p < q - 1 { MulGrows(p, q - 1, u); }
  }

  lemma Scaled(p: nat, q: nat, u: nat)
    requires u >= 1
    ensures p <= q <==> p * u <= q * u
  {
    if p < q { MulGrows(p, q, u); }
    if q < p { MulGrows(q, p, u); }
  }

  /** A number is its quotient and remainder. */
  lemma Divided(n: nat, u: nat)
    requires u >= 1
    ensures n == Quotient(n, u) * u + Remainder(n, u) && Remainder(n, u) < u
  {
  }

  /** Division with remainder follows the order of the numbers. */
  lemma {:induction false} Division(n: nat, m: nat, u: nat, p: nat, q: nat, r: nat, s: nat)
    requires n <= m && u >= 1 && n == p * u + r && m == q * u + s && r < u && s < u
    ensures p <= q && (p < q ==> p * u + u <= q * u)
  {
    if q < p { MulGrows(q, p, u); }
    if p < q { MulGrows(p, q, u); }
  }

  lemma {:induction false} NearestBounds(n: nat)
    ensures Nearest(n) <= EXACT_LIMIT * Unit(n) && (n >= EXACT_LIMIT ==> EXACT_LIMIT / 2 * Unit(n) <= Nearest(n))
  {
    hide Unit, Quotient, Remainder;
    var u := Unit(n);
    var q := Quotient(n, u);
    UnitBounds(n);
    Divided(n, u);
    Scaled(EXACT_LIMIT, q, u);
    Scaled(q + 1, EXACT_LIMIT, u);
    Scaled(q + 1, EXACT_LIMIT / 2, u);
    Scaled(EXACT_LIMIT / 2, q, u);
  }

  /** In one unit, rounding follows quotient and remainder. */
  lemma {:induction false} NearestGrows(n: nat, m: nat)
    requires n <= m && Unit(n) == Unit(m)
    ensures Nearest(n) <= Nearest(m)
  {
    hide Rounded, Unit, Quotient, Remainder;
    var u := Unit(n);
    Divided(n, u);
    Divided(m, u);
    Division(n, m, u, Quotient(n, u), Quotient(m, u), Remainder(n, u), Remainder(m, u));
    RoundedGrows(Quotient(n, u), Quotient(m, u), Remainder(n, u), Remainder(m, u), u);
  }

  lemma RoundedGrows(p: nat, q: nat, r: nat, s: nat, u: nat)
    requires (p == q && r <= s) || (p < q && p * u + u <= q * u)
    ensures Rounded(p, r, u) <= Rounded(q, s, u)
  {
  }

  /** Rounding never turns an order around. */
  lemma {:induction false} NumberGrows(n: nat, m: nat)
    requires n <= m
    ensures Number(n) <= Number(m)
  {
    hide Nearest, Unit, Infinite;
    UnitGrows(n, m);
    if Unit(n) == Unit(m) {
      NearestGrows(n, m);
    } else {
      NearestBounds(n);
      NearestBounds(m);
      UnitBounds(m);
      UnitAbove(m);
    }
  }

  lemma UnitAbove(m: nat)
    ensures Unit(m) > 1 ==> m >= EXACT_LIMIT
  {
  }

  // ----- the comparison as it is written -----

  function CompareIds(av: string, bv: string): int {
    if IsNumeric(av) && IsNumeric(bv) then if Number(Value(av)) > Number(Value(bv)) then 1 else -1
    else if IsNumeric(av) != IsNumeric(bv) then if IsNumeric(av) then -1 else 1
    else if TextLower(bv, av) then 1 else -1
  }

  function ComparePrerelease(p: seq<string>, q: seq<string>): int {
    if p == [] || q == [] then (if p == [] && q == [] then 0 else if p == [] then -1 else 1)
    else if p[0] == q[0] then ComparePrerelease(p[1..], q[1..])
    else CompareIds(p[0], q[0])
  }

  /** What parseSemver keeps of a version. */
  function Parsed(v: Version): Version { Version(Number(v.major), Number(v.minor), Number(v.patch), v.prerelease) }

  function CompareParsed(a: Version, b: Version): int {
    if a.major != b.major then (if a.major > b.major then 1 else -1)
    else if a.minor != b.minor then (if a.minor > b.minor then 1 else -1)
    else if a.patch != b.patch then (if a.patch > b.patch then 1 else -1)
    else if a.prerelease == [] || b.prerelease == [] then
      (if |a.prerelease| == |b.prerelease| then 0 else if a.prerelease == [] then 1 else -1)
    else ComparePrerelease(a.prerelease, b.prerelease)
  }

  function Compare(a: Version, b: Version): int { CompareParsed(Parsed(a), Parsed(b)) }

  /** compareSemver: early returns from two loops. */
  method CompareSemver(left: Version, right: Version) returns (r: int)
    ensures r == Compare(left, right)
  {
    var a, b := Parsed(left), Parsed(right);
    var core := [(a.major, b.major), (a.minor, b.minor), (a.patch, b.patch)];
    var key := 0;
    while key < 3
      invariant 0 <= key <= 3 && forall k :: 0 <= k < key ==> core[k].0 == core[k].1
    {
      assert key == 0 || key == 1 || key == 2;
      assert (key > 0 ==> core[0].0 == core[0].1) && (key > 1 ==> core[1].0 == core[1].1);
      if core[key].0 != core[key].1 { return if core[key].0 > core[key].1 then 1 else -1; }
      key := key + 1;
    }
    assert core[0].0 == core[0].1 && core[1].0 == core[1].1 && core[2].0 == core[2].1;
    var p, q := a.prerelease, b.prerelease;
    if |p| == 0 || |q| == 0 { return if |p| == |q| then 0 else if |p| == 0 then 1 else -1; }
    var length := if |p| > |q| then |p| else |q|;
    var index := 0;
    while index < length
      invariant 0 <= index <= length && index <= |p| && index <= |q|
      invariant ComparePrerelease(p, q) == ComparePrerelease(p[index..], q[index..])
    {
      if index >= |p| || index >= |q| { return if index >= |p| then -1 else 1; }
      if p[index] != q[index] {
        return CompareIds(p[index], q[index]);
      }
      assert p[index..][1..] == p[index + 1..] && q[index..][1..] == q[index + 1..];
      index := index + 1;
    }
    r := 0;
  }

  // ----- the orders are strict and total -----

  lemma {:induction false} TextTotal(x: string, y: string)
    ensures x == y || TextLower(x, y) || TextLower(y, x)
    ensures !(TextLower(x, y) && TextLower(y, x))
    decreases |x|
  {
    if x != [] && y != [] {
      TextTotal(x[1..], y[1..]);
      assert x == [x[0]] + x[1..] && y == [y[0]] + y[1..];
    }
  }

  lemma {:induction false} TextTransitive(x: string, y: string, z: string)
    requires TextLower(x, y) && TextLower(y, z)
    ensures TextLower(x, z)
    decreases |x|
  {
    if x != [] && x[0] == y[0] == z[0] { TextTransitive(x[1..], y[1..], z[1..]); }
  }

  lemma {:induction false} CanonicalValue(x: string)
    requires IsNumeric(x) && CanonicalId(x) && |x| > 1
    ensures Value(x[..|x| - 1]) >= 1
  {
    var p := x[..|x| - 1];
    if |p| > 1 {
      assert IsNumeric(p) && CanonicalId(p);
      CanonicalValue(p);
    } else {
      assert p == [x[0]] && p[..0] == [];
    }
  }

  /** Without leading zeros a number is written in one way. */
  lemma {:induction false} ValueInjective(x: string, y: string)
    requires IsNumeric(x) && IsNumeric(y) && CanonicalId(x) && CanonicalId(y) && Value(x) == Value(y)
    ensures x == y
    decreases |x|
  {
    var px, py := x[..|x| - 1], y[..|y| - 1];
    assert x == px + [x[|x| - 1]] && y == py + [y[|y| - 1]];
    if |x| > 1 { CanonicalValue(x); }
    if |y| > 1 { CanonicalValue(y); }
    if |x| > 1 && |y| > 1 {
      assert IsNumeric(px) && IsNumeric(py) && CanonicalId(px) && CanonicalId(py);
      ValueInjective(px, py);
    }
  }

  lemma IdTotal(x: string, y: string)
    requires CanonicalId(x) && CanonicalId(y)
    ensures x == y || IdLower(x, y) || IdLower(y, x)
    ensures !(IdLower(x, y) && IdLower(y, x))
  {
    TextTotal(x, y);
    if IsNumeric(x) && IsNumeric(y) && Value(x) == Value(y) { ValueInjective(x, y); }
  }

  lemma IdTransitive(x: string, y: string, z: string)
    requires IdLower(x, y) && IdLower(y, z)
    ensures IdLower(x, z)
  {
    if TextLower(x, y) && TextLower(y, z) { TextTransitive(x, y, z); }
  }

  lemma {:induction false} PrereleaseTransitive(p: seq<string>, q: seq<string>, r: seq<string>)
    requires PrereleaseLower(p, q) && PrereleaseLower(q, r)
    ensures PrereleaseLower(p, r)
    decreases |p|
  {
    if p != [] {
      if IdLower(p[0], q[0]) && IdLower(q[0], r[0]) {
        IdTransitive(p[0], q[0], r[0]);
      } else if p[0] == q[0] == r[0] && !IdLower(p[0], r[0]) {
        PrereleaseTransitive(p[1..], q[1..], r[1..]);
      }
    }
  }

  /** The precedence is transitive, for all versions. */
  lemma LowerTransitive(a: Version, b: Version, c: Version)
    requires Lower(a, b) && Lower(b, c)
    ensures Lower(a, c)
  {
    if SameCore(a, b) && SameCore(b, c) && c.prerelease != [] {
      PrereleaseTransitive(a.prerelease, b.prerelease, c.prerelease);
    }
  }

  // ----- where the comparison is the precedence -----

  /** The first core number in which the versions differ still differs after rounding. */
  predicate CoreTold(a: Version, b: Version) {
    if a.major != b.major then Number(a.major) != Number(b.major)
    else if a.minor != b.minor then Number(a.minor) != Number(b.minor)
    else Number(a.patch) == Number(b.patch) ==> a.patch == b.patch
  }

  /** The first identifiers that differ are numbers the comparison cannot tell apart. */
  predicate Clash(p: seq<string>, q: seq<string>) {
    p != [] && q != [] &&
    if p[0] == q[0] then Clash(p[1..], q[1..])
    else IsNumeric(p[0]) && IsNumeric(q[0]) && Number(Value(p[0])) == Number(Value(q[0]))
  }

  /** The first difference between the versions is one the comparison sees. */
  predicate Told(a: Version, b: Version) { CoreTold(a, b) && (SameCore(a, b) ==> !Clash(a.prerelease, b.prerelease)) }

  lemma NumberLower(n: nat, m: nat)
    requires Number(n) != Number(m)
    ensures Number(n) < Number(m) <==> n < m
  {
    if n < m { NumberGrows(n, m); } else { NumberGrows(m, n); }
  }

  lemma CompareIdsIs(x: string, y: string)
    requires x != y && !(IsNumeric(x) && IsNumeric(y) && Number(Value(x)) == Number(Value(y)))
    ensures CompareIds(x, y) == if IdLower(x, y) then -1 else 1
    ensures IdLower(x, y) <==> !IdLower(y, x)
  {
    hide Number;
    TextTotal(x, y);
    if IsNumeric(x) && IsNumeric(y) { NumberLower(Value(x), Value(y)); }
  }

  lemma {:induction false} ComparePrereleaseIs(p: seq<string>, q: seq<string>)
    requires !Clash(p, q)
    ensures ComparePrerelease(p, q) == -1 <==> PrereleaseLower(p, q)
    ensures ComparePrerelease(p, q) == 1 <==> PrereleaseLower(q, p)
    ensures ComparePrerelease(p, q) == 0 <==> p == q
    ensures ComparePrerelease(p, q) in {-1, 0, 1}
    decreases |p|
  {
    hide Number, Value, CompareIds, IdLower;
    if p != [] && q != [] {
      if p[0] == q[0] {
        IdIrreflexive(p[0]);
        ComparePrereleaseIs(p[1..], q[1..]);
        assert p == [p[0]] + p[1..] && q == [q[0]] + q[1..];
      } else {
        CompareIdsIs(p[0], q[0]);
      }
    }
  }

  lemma IdIrreflexive(x: string)
    ensures !IdLower(x, x)
  {
    TextTotal(x, x);
  }

  lemma {:induction false} ClashSymmetric(p: seq<string>, q: seq<string>)
    ensures Clash(p, q) <==> Clash(q, p)
    decreases |p|
  {
    if p != [] && q != [] && p[0] == q[0] { ClashSymmetric(p[1..], q[1..]); }
  }

  lemma CompareCore(a: Version, b: Version)
    requires CoreTold(a, b)
    ensures !SameCore(a, b) ==> Compare(a, b) == if CoreLower(a, b) then -1 else 1
    ensures CoreLower(a, b) ==> !CoreLower(b, a)
    ensures SameCore(a, b) || CoreLower(a, b) || CoreLower(b, a)
  {
    hide Number, ComparePrerelease;
    if a.major != b.major { NumberLower(a.major, b.major); }
    else if a.minor != b.minor { NumberLower(a.minor, b.minor); }
    else if a.patch != b.patch { NumberLower(a.patch, b.patch); }
  }

  /**
   * When rounding and spelling hide nothing, the comparison is exactly the precedence of section 11: total,
   * antisymmetric, and zero only for equal versions.
   */
  lemma CompareIsPrecedence(a: Version, b: Version)
    requires Told(a, b)
    ensures Compare(a, b) == -1 <==> Lower(a, b)
    ensures Compare(a, b) == 1 <==> Lower(b, a)
    ensures Compare(a, b) == 0 <==> a == b
    ensures Compare(a, b) in {-1, 0, 1}
    ensures Compare(b, a) == -Compare(a, b)
  {
    hide Number, ComparePrerelease, PrereleaseLower, Clash;
    CompareCore(a, b);
    CompareCore(b, a);
    if SameCore(a, b) {
      ClashSymmetric(a.prerelease, b.prerelease);
      ComparePrereleaseIs(a.prerelease, b.prerelease);
      ComparePrereleaseIs(b.prerelease, a.prerelease);
    }
  }

  /** Every numeric identifier is below 2^53. */
  predicate ExactIds(p: seq<string>) { forall i :: 0 <= i < |p| && IsNumeric(p[i]) ==> Value(p[i]) < EXACT_LIMIT }

  predicate Exact(v: Version) {
    v.major < EXACT_LIMIT && v.minor < EXACT_LIMIT && v.patch < EXACT_LIMIT && ExactIds(v.prerelease)
  }

  predicate CanonicalAll(p: seq<string>) { forall i :: 0 <= i < |p| ==> CanonicalId(p[i]) }

  lemma {:induction false} ExactIdsTold(p: seq<string>, q: seq<string>)
    requires CanonicalAll(p) && CanonicalAll(q) && ExactIds(p) && ExactIds(q)
    ensures !Clash(p, q)
    decreases |p|
  {
    hide Value;
    if p != [] && q != [] {
      if p[0] == q[0] {
        ExactIdsTold(p[1..], q[1..]);
      } else if IsNumeric(p[0]) && IsNumeric(q[0]) && Value(p[0]) == Value(q[0]) {
        ValueInjective(p[0], q[0]);
      }
    }
  }

  /** Numbers below 2^53 without leading zeros hide nothing. */
  lemma ExactIsTold(a: Version, b: Version)
    requires Canonical(a) && Canonical(b) && Exact(a) && Exact(b)
    ensures Told(a, b)
  {
    ExactIdsTold(a.prerelease, b.prerelease);
  }

  // ----- everything the pattern admits -----

  lemma {:induction false} PrereleaseAntisymmetricIff(p: seq<string>, q: seq<string>)
    ensures ComparePrerelease(q, p) == -ComparePrerelease(p, q) <==> !Clash(p, q)
    decreases |p|
  {
    hide Number, Value;
    if p != [] && q != [] {
      if p[0] == q[0] { PrereleaseAntisymmetricIff(p[1..], q[1..]); } else { TextTotal(p[0], q[0]); }
    }
  }

  /** Swapping the arguments negates the result unless two numbers that round alike, or two spellings of one, decide it. */
  lemma AntisymmetricIff(a: Version, b: Version)
    ensures Compare(b, a) == -Compare(a, b) <==> !(SameCore(Parsed(a), Parsed(b)) && Clash(a.prerelease, b.prerelease))
  {
    hide Number;
    PrereleaseAntisymmetricIff(a.prerelease, b.prerelease);
  }

  lemma {:induction false} PrereleaseZeroIff(p: seq<string>, q: seq<string>)
    ensures ComparePrerelease(p, q) == 0 <==> p == q
    decreases |p|
  {
    hide Number, Value;
    if p != [] && q != [] && p[0] == q[0] {
      PrereleaseZeroIff(p[1..], q[1..]);
      assert p == [p[0]] + p[1..] && q == [q[0]] + q[1..];
    }
  }

  /** The comparison is zero exactly for versions that are the same once their core numbers are rounded. */
  lemma ZeroIff(a: Version, b: Version)
    ensures Compare(a, b) == 0 <==> Parsed(a) == Parsed(b)
  {
    hide Number, ComparePrerelease;
    PrereleaseZeroIff(a.prerelease, b.prerelease);
  }

  /** `a` is below `b` whichever way round they are compared. */
  predicate Under(a: Version, b: Version) { Compare(a, b) == -1 && Compare(b, a) == 1 }

  lemma IdsTransitive(x: string, y: string, z: string)
    requires CompareIds(x, y) == -1 && CompareIds(y, x) == 1 && CompareIds(y, z) == -1 && CompareIds(z, y) == 1
    ensures CompareIds(x, z) == -1 && CompareIds(z, x) == 1 && x != z
  {
    hide Number, Value;
    if TextLower(x, y) && TextLower(y, z) { TextTransitive(x, y, z); TextTotal(x, z); }
  }

  lemma {:induction false} PrereleaseUnder(p: seq<string>, q: seq<string>, r: seq<string>)
    requires ComparePrerelease(p, q) == -1 && ComparePrerelease(q, p) == 1
    requires ComparePrerelease(q, r) == -1 && ComparePrerelease(r, q) == 1
    ensures ComparePrerelease(p, r) == -1 && ComparePrerelease(r, p) == 1
    decreases |p|
  {
    hide CompareIds;
    if p != [] && q != [] && r != [] {
      if p[0] == q[0] && q[0] == r[0] {
        PrereleaseUnder(p[1..], q[1..], r[1..]);
      } else if p[0] != q[0] && q[0] != r[0] {
        IdsTransitive(p[0], q[0], r[0]);
      }
    }
  }

  /** Wherever it is antisymmetric the comparison is transitive. */
  lemma UnderTransitive(a: Version, b: Version, c: Version)
    requires Under(a, b) && Under(b, c)
    ensures Under(a, c)
  {
    hide Number, ComparePrerelease;
    var p, q, r := a.prerelease, b.prerelease, c.prerelease;
    if p != [] && q != [] && r != [] && SameCore(Parsed(a), Parsed(b)) && SameCore(Parsed(b), Parsed(c)) { PrereleaseUnder(p, q, r); }
  }

  lemma {:induction false} PrereleaseAbove(p: seq<string>, q: seq<string>)
    requires ComparePrerelease(p, q) == 1
    ensures ComparePrerelease(q, p) == -1
    decreases |p|
  {
    hide Number, Value;
    if p != [] && q != [] {
      if p[0] == q[0] { PrereleaseAbove(p[1..], q[1..]); } else { TextTotal(p[0], q[0]); }
    }
  }

  /** A comparison that says "above" is never wrong about the order it sees. */
  lemma AboveIsUnder(a: Version, b: Version)
    requires Compare(a, b) == 1
    ensures Under(b, a)
  {
    hide Number, ComparePrerelease;
    if a.prerelease != [] && b.prerelease != [] && SameCore(Parsed(a), Parsed(b)) { PrereleaseAbove(a.prerelease, b.prerelease); }
  }

  // ----- where it fails -----

  /** 1.0.0-1 and 1.0.0-01 each compare below the other. */
  lemma LeadingZeroClash()
    ensures Compare(Version(1, 0, 0, ["1"]), Version(1, 0, 0, ["01"])) == -1
    ensures Compare(Version(1, 0, 0, ["01"]), Version(1, 0, 0, ["1"])) == -1
  {
    assert "01"[..1] == "0" && "0"[..0] == "" && "1"[..0] == "";
    assert Value("0") == 0 && Value("1") == 1 && Value("01") == 1;
    assert ["1"][0] != ["01"][0];
  }

  /** The digits of a number. */
  function Decimal(n: nat): (s: string)
    ensures IsNumeric(s) && CanonicalId(s) && Value(s) == n
    ensures n > 0 ==> s[0] != '0'
  {
    var d := ('0' as int + n % 10) as char;
    if n < 10 then
      assert [d][..0] == [];
      [d]
    else
      var r := Decimal(n / 10) + [d];
      assert r[..|r| - 1] == Decimal(n / 10);
      r
  }

  /** Any two numbers that round alike do the same without leading zeros, and as core numbers compare as equal. */
  lemma {:induction false} RoundingClash(n: nat, m: nat)
    requires n != m && Number(n) == Number(m)
    ensures var a, b := Version(1, 0, 0, [Decimal(n)]), Version(1, 0, 0, [Decimal(m)]);
      Canonical(a) && Canonical(b) && a != b && Compare(a, b) == -1 && Compare(b, a) == -1
    ensures Compare(Version(n, 0, 0, []), Version(m, 0, 0, [])) == 0
  {
    hide Number, Value;
    assert Decimal(n) != Decimal(m) by { assert Value(Decimal(n)) != Value(Decimal(m)); }
    assert [Decimal(n)][0] == Decimal(n) && [Decimal(m)][0] == Decimal(m);
  }

  /** 2^53 and 2^53 + 1 are the first such pair. */
  lemma FirstRoundingClash()
    ensures Number(EXACT_LIMIT) == Number(EXACT_LIMIT + 1)
    ensures forall n: nat, m: nat :: n < m <= EXACT_LIMIT ==> Number(n) != Number(m)
  {
    assert Unit(EXACT_LIMIT) == 2 && Unit(EXACT_LIMIT + 1) == 2;
    assert Nearest(EXACT_LIMIT) == EXACT_LIMIT && Nearest(EXACT_LIMIT + 1) == EXACT_LIMIT;
  }

  // ----- what the check enforces -----

  const INITIAL := Version(0, 1, 0, [])

  /** validateVersionChange: a new service starts at the initial version, any other must go up. */
  predicate ChangeAccepted(base: Option<Version>, current: Version, isNew: bool) {
    if isNew then current == INITIAL else base.Some? && Compare(current, base.value) > 0
  }

  lemma CompareRange(a: Version, b: Version)
    ensures Compare(a, b) in {-1, 0, 1} && Compare(a, a) == 0
  {
    hide Number, ComparePrerelease;
    PrereleaseRange(a.prerelease, b.prerelease);
    ZeroIff(a, a);
  }

  lemma {:induction false} PrereleaseRange(p: seq<string>, q: seq<string>)
    ensures ComparePrerelease(p, q) in {-1, 0, 1}
    decreases |p|
  {
    if p != [] && q != [] && p[0] == q[0] { PrereleaseRange(p[1..], q[1..]); }
  }

  /**
   * A history in which every change was accepted goes up from any of its versions to any later one, whatever their
   * numbers and spellings, so it never comes back; and it goes up in the precedence wherever the difference is told.
   */
  lemma {:induction false} HistoryIncreases(history: seq<Version>, i: nat, j: nat)
    requires forall k :: 0 < k < |history| ==> ChangeAccepted(Some(history[k - 1]), history[k], false)
    requires i < j < |history|
    ensures Under(history[i], history[j]) && history[i] != history[j]
    ensures Told(history[i], history[j]) ==> Lower(history[i], history[j])
    decreases j
  {
    hide Compare, Told, Lower;
    assert ChangeAccepted(Some(history[j - 1]), history[j], false);
    CompareRange(history[j], history[j - 1]);
    AboveIsUnder(history[j], history[j - 1]);
    if i < j - 1 {
      HistoryIncreases(history, i, j - 1);
      UnderTransitive(history[i], history[j - 1], history[j]);
    }
    CompareRange(history[i], history[j]);
    if Told(history[i], history[j]) { CompareIsPrecedence(history[i], history[j]); }
  }
}
