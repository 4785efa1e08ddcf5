/**
 * JSON metadata as the audit service treats it.  An object is the order of its keys and the values they
 * name, so two objects are equal exactly when their JSON texts are; a key is its rank in the sort order.
 * Storage keeps the values and may return the keys of any object in any order.
 */
module AuditJson {
  import opened Common
  import opened Order

  datatype Json = Scalar(value: nat) | Arr(items: seq<Json>) | Obj(order: seq<nat>, fields: map<nat, Json>)

  /** The keys of every object are listed once each. */
  ghost predicate WellFormed(j: Json) {
    match j
    case Scalar(_) => true
    case Arr(items) => forall i :: 0 <= i < |items| ==> WellFormed(items[i])
    case Obj(o, f) => Distinct(o) && (forall k :: k in o <==> k in f) && forall k :: k in f ==> WellFormed(f[k])
  }

  // ----- sortObject -----

  /** Sorts an object and what it reaches through objects and through arrays of objects; not through nested arrays. */
  function SortObject(j: Json): Json
    decreases j, 0
  {
    match j
    case Obj(_, f) => Obj(Sorted(f.Keys), map k | k in f :: SortValue(f[k]))
    case _ => j
  }

  function SortValue(v: Json): Json
    decreases v, 1
  {
    match v
    case Scalar(_) => v
    case Obj(_, _) => SortObject(v)
    case Arr(items) => Arr(seq(|items|, i requires 0 <= i < |items| => if items[i].Obj? then SortObject(items[i]) else items[i]))
  }

  /** Sorting what is sorted changes nothing. */
  lemma {:induction false} SortIdempotent(j: Json)
    ensures SortObject(SortObject(j)) == SortObject(j)
    decreases j, 0
  {
    if j.Obj? {
      var s := SortObject(j);
      assert s.fields.Keys == j.fields.Keys;
      forall k | k in j.fields ensures SortValue(s.fields[k]) == s.fields[k] { SortValueIdempotent(j.fields[k]); }
      assert SortObject(s).fields == s.fields;
    }
  }

  lemma {:induction false} SortValueIdempotent(v: Json)
    ensures SortValue(SortValue(v)) == SortValue(v)
    decreases v, 1
  {
    match v
    case Scalar(_) =>
    case Obj(_, _) => SortIdempotent(v);
    case Arr(items) =>
      forall i | 0 <= i < |items| ensures SortValue(SortValue(v)).items[i] == SortValue(v).items[i] {
        if items[i].Obj? { SortIdempotent(items[i]); }
      }
  }

  // ----- permuted storage -----

  /** `b` is `a` with the keys of its objects listed in another order, at any depth. */
  predicate Permuted(a: Json, b: Json) {
    match a
    case Scalar(_) => b == a
    case Arr(items) => b.Arr? && |b.items| == |items| && forall i :: 0 <= i < |items| ==> Permuted(items[i], b.items[i])
    case Obj(_, f) => b.Obj? && b.fields.Keys == f.Keys && forall k :: k in f ==> Permuted(f[k], b.fields[k])
  }

  /** Only one key order is possible anywhere inside. */
  predicate Rigid(j: Json) {
    match j
    case Scalar(_) => true
    case Arr(items) => forall i :: 0 <= i < |items| ==> Rigid(items[i])
    case Obj(_, f) => |f| <= 1 && forall k :: k in f ==> Rigid(f[k])
  }

  /** Whatever sortObject does not reach - an array directly inside an array - has only one key order. */
  predicate Stable(j: Json)
    decreases j, 0
  {
    j.Obj? ==> forall k :: k in j.fields ==> StableValue(j.fields[k])
  }

  predicate StableValue(v: Json)
    decreases v, 1
  {
    match v
    case Scalar(_) => true
    case Obj(_, _) => Stable(v)
    case Arr(items) => forall i :: 0 <= i < |items| ==> if items[i].Obj? then Stable(items[i]) else Rigid(items[i])
  }

  lemma AllSame(s: set<nat>)
    requires |s| <= 1
    ensures forall x, y :: x in s && y in s ==> x == y
  {
    forall x, y | x in s && y in s ensures x == y {
      assert |s - {x}| == 0;
      assert y in {x} + (s - {x});
    }
  }

  lemma {:induction false} FirstTwo(a: seq<nat>)
    requires Distinct(a) && |a| > 1
    ensures a[0] in a && a[1] in a && a[0] != a[1]
  {
  }

  lemma {:induction false} OneKey(s: set<nat>, a: seq<nat>, b: seq<nat>)
    requires |s| <= 1 && Distinct(a) && Distinct(b) && (forall k :: k in a <==> k in s) && (forall k :: k in b <==> k in s)
    ensures a == b
  {
    AllSame(s);
    if |a| > 1 { FirstTwo(a); assert false; }
    if |b| > 1 { FirstTwo(b); assert false; }
    assert |a| > 0 ==> a[0] in a && a[0] in s && a[0] in b;
    assert |b| > 0 ==> b[0] in b && b[0] in s && b[0] in a;
  }

  lemma {:induction false} RigidIsFixed(a: Json, b: Json)
    requires Rigid(a) && Permuted(a, b) && WellFormed(a) && WellFormed(b)
    ensures a == b
    decreases a
  {
    match a
    case Scalar(_) =>
    case Arr(items) => forall i | 0 <= i < |items| ensures items[i] == b.items[i] { RigidIsFixed(items[i], b.items[i]); }
    case Obj(o, f) =>
      forall k | k in f ensures f[k] == b.fields[k] { RigidIsFixed(f[k], b.fields[k]); }
      assert f == b.fields;
      assert |f.Keys| == |f|;
      OneKey(f.Keys, o, b.order);
  }

  /** A stable object sorts to the same text however storage has permuted its keys. */
  lemma {:induction false} SortIgnoresOrder(a: Json, b: Json)
    requires a.Obj? && Stable(a) && Permuted(a, b) && WellFormed(a) && WellFormed(b)
    ensures SortObject(a) == SortObject(b)
    decreases a, 0
  {
    forall k | k in a.fields ensures SortValue(a.fields[k]) == SortValue(b.fields[k]) {
      SortValueIgnoresOrder(a.fields[k], b.fields[k]);
    }
    assert SortObject(a).fields == SortObject(b).fields;
  }

  lemma {:induction false} SortValueIgnoresOrder(v: Json, w: Json)
    requires StableValue(v) && Permuted(v, w) && WellFormed(v) && WellFormed(w)
    ensures SortValue(v) == SortValue(w)
    decreases v, 1
  {
    match v
    case Scalar(_) =>
    case Obj(_, _) => SortIgnoresOrder(v, w);
    case Arr(items) =>
      forall i | 0 <= i < |items| ensures SortValue(v).items[i] == SortValue(w).items[i] {
        if items[i].Obj? { SortIgnoresOrder(items[i], w.items[i]); } else { RigidIsFixed(items[i], w.items[i]); }
      }
  }

  // ----- the exact condition -----

  function Reversed(o: seq<nat>): (r: seq<nat>)
    ensures |r| == |o| && forall i :: 0 <= i < |o| ==> r[i] == o[|o| - 1 - i]
  {
    seq(|o|, i requires 0 <= i < |o| => o[|o| - 1 - i])
  }

  /** The keys of every object listed backwards. */
  function Scramble(j: Json): Json {
    match j
    case Scalar(_) => j
    case Arr(items) => Arr(seq(|items|, i requires 0 <= i < |items| => Scramble(items[i])))
    case Obj(o, f) => Obj(Reversed(o), map k | k in f :: Scramble(f[k]))
  }

  lemma {:induction false} ScrambleIsPermuted(j: Json)
    requires WellFormed(j)
    ensures Permuted(j, Scramble(j)) && WellFormed(Scramble(j))
    decreases j
  {
    match j
    case Scalar(_) =>
    case Arr(items) => forall i | 0 <= i < |items| { ScrambleIsPermuted(items[i]); }
    case Obj(o, f) =>
      var s := Scramble(j);
      assert s.fields.Keys == f.Keys;
      ReversedKeys(o);
      forall k | k in f ensures Permuted(f[k], s.fields[k]) && WellFormed(s.fields[k]) { ScrambleIsPermuted(f[k]); }
  }

  lemma {:induction false} ReversedKeys(o: seq<nat>)
    requires Distinct(o)
    ensures Distinct(Reversed(o)) && forall k :: k in Reversed(o) <==> k in o
  {
    var r := Reversed(o);
    forall k | k in o ensures k in r {
      var i :| 0 <= i < |o| && o[i] == k;
      assert r[|o| - 1 - i] == k;
    }
  }

  lemma {:induction false} ScrambleMoves(j: Json)
    requires WellFormed(j) && !Rigid(j)
    ensures Scramble(j) != j
    decreases j
  {
    match j
    case Arr(items) =>
      var i :| 0 <= i < |items| && !Rigid(items[i]);
      ScrambleMoves(items[i]);
      assert Scramble(j).items[i] != items[i];
    case Obj(o, f) =>
      if |f| > 1 {
        AtLeastTwo(o, f.Keys);
        assert Reversed(o)[0] == o[|o| - 1];
      } else {
        var k :| k in f && !Rigid(f[k]);
        ScrambleMoves(f[k]);
        assert Scramble(j).fields[k] != f[k];
      }
  }

  lemma {:induction false} AtLeastTwo(o: seq<nat>, s: set<nat>)
    requires |s| > 1 && forall k :: k in o <==> k in s
    ensures |o| > 1
  {
    var x :| x in s;
    assert |s - {x}| == |s| - 1;
    var y :| y in s - {x};
    assert x in o && y in o && x != y;
  }

  lemma {:induction false} UnstableSortsApart(a: Json)
    requires a.Obj? && WellFormed(a) && !Stable(a)
    ensures SortObject(Scramble(a)) != SortObject(a)
    decreases a, 0
  {
    var k :| k in a.fields && !StableValue(a.fields[k]);
    UnstableValueSortsApart(a.fields[k]);
    assert SortObject(Scramble(a)).fields[k] == SortValue(Scramble(a.fields[k]));
    assert SortObject(a).fields[k] == SortValue(a.fields[k]);
  }

  lemma {:induction false} UnstableValueSortsApart(v: Json)
    requires WellFormed(v) && !StableValue(v)
    ensures SortValue(Scramble(v)) != SortValue(v)
    decreases v, 1
  {
    match v
    case Obj(_, _) => UnstableSortsApart(v);
    case Arr(items) =>
      var i :| 0 <= i < |items| && !(if items[i].Obj? then Stable(items[i]) else Rigid(items[i]));
      if items[i].Obj? { UnstableSortsApart(items[i]); } else { ScrambleMoves(items[i]); }
      assert SortValue(Scramble(v)).items[i] != SortValue(v).items[i];
  }

  /** Sorting is insensitive to storage order exactly for the stable objects. */
  lemma {:induction false} StableIffOrderIgnored(a: Json)
    requires a.Obj? && WellFormed(a)
    ensures Stable(a) <==> forall b :: Permuted(a, b) && WellFormed(b) ==> SortObject(b) == SortObject(a)
  {
    if Stable(a) {
      forall b | Permuted(a, b) && WellFormed(b) ensures SortObject(b) == SortObject(a) { SortIgnoresOrder(a, b); }
    } else {
      ScrambleIsPermuted(a);
      UnstableSortsApart(a);
    }
  }

  // ----- sanitizing -----

  const MAX_DEPTH := 4
  const MAX_KEYS := 40
  const MAX_ITEMS := 20

  /** Which keys and scalars are let through. */
  datatype Rules = Rules(key: nat -> bool, scalar: nat -> bool)

  function SanitizeObject(j: Json, depth: nat, rules: Rules): Option<Json>
    requires j.Obj?
    decreases j, 0
  {
    if depth > MAX_DEPTH || |j.fields| > MAX_KEYS then None
    else if exists k :: k in j.fields && (!rules.key(k) || SanitizeValue(j.fields[k], depth + 1, rules).None?) then None
    else Some(Obj(Sorted(j.fields.Keys), map k | k in j.fields :: SanitizeValue(j.fields[k], depth + 1, rules).value))
  }

  function SanitizeValue(v: Json, depth: nat, rules: Rules): Option<Json>
    decreases v, 1
  {
    if depth > MAX_DEPTH then None else
      match v
      case Scalar(s) => if rules.scalar(s) then Some(v) else None
      case Arr(items) =>
        if |items| > MAX_ITEMS || exists i :: 0 <= i < |items| && SanitizeValue(items[i], depth + 1, rules).None? then None
        else Some(Arr(seq(|items|, i requires 0 <= i < |items| => SanitizeValue(items[i], depth + 1, rules).value)))
      case Obj(_, _) => SanitizeObject(v, depth, rules)
  }

  /** `x` is `v` itself or lies in it, `d` levels down. */
  predicate Lies(v: Json, x: Json, d: nat)
    decreases v
  {
    if d == 0 then x == v else
      match v
      case Scalar(_) => false
      case Arr(items) => exists i :: 0 <= i < |items| && Lies(items[i], x, d - 1)
      case Obj(_, f) => exists k :: k in f && Lies(f[k], x, d - 1)
  }

  /** What one value must be: an allowed scalar, or a container that is not too big and has only allowed keys. */
  predicate Allowed(x: Json, rules: Rules) {
    match x
    case Scalar(s) => rules.scalar(s)
    case Arr(items) => |items| <= 20
    case Obj(_, f) => |f| <= 40 && forall k :: k in f ==> rules.key(k)
  }

  /** Metadata is accepted exactly when nothing lies more than four levels down in it and everything in it is allowed. */
  lemma {:induction false} AcceptedIff(j: Json, rules: Rules)
    requires j.Obj?
    ensures SanitizeObject(j, 0, rules).Some? <==> forall x, d: nat :: Lies(j, x, d) ==> d <= 4 && Allowed(x, rules)
  {
    if SanitizeObject(j, 0, rules).Some? {
      forall x, d: nat | Lies(j, x, d) ensures d <= 4 && Allowed(x, rules) { AcceptedHolds(j, 0, rules, x, d); }
    } else {
      var r := Offender(j, 0, rules);
      assert Lies(j, r.0, r.1);
    }
  }

  lemma {:induction false} AcceptedHolds(v: Json, depth: nat, rules: Rules, x: Json, d: nat)
    requires SanitizeValue(v, depth, rules).Some? && Lies(v, x, d)
    ensures depth + d <= 4 && Allowed(x, rules)
    decreases v
  {
    hide SanitizeValue, SanitizeObject;
    AcceptedParts(v, depth, rules);
    if d > 0 {
      match v
      case Arr(items) =>
        var i :| 0 <= i < |items| && Lies(items[i], x, d - 1);
        AcceptedHolds(items[i], depth + 1, rules, x, d - 1);
      case Obj(_, f) =>
        var k :| k in f && Lies(f[k], x, d - 1);
        AcceptedHolds(f[k], depth + 1, rules, x, d - 1);
      case Scalar(_) =>
    }
  }

  lemma AcceptedParts(v: Json, depth: nat, rules: Rules)
    requires SanitizeValue(v, depth, rules).Some?
    ensures depth <= 4 && Allowed(v, rules)
    ensures v.Arr? ==> forall i :: 0 <= i < |v.items| ==> SanitizeValue(v.items[i], depth + 1, rules).Some?
    ensures v.Obj? ==> forall k :: k in v.fields ==> SanitizeValue(v.fields[k], depth + 1, rules).Some?
  {
  }

  /** What refused metadata is refused for. */
  ghost function Offender(v: Json, depth: nat, rules: Rules): (r: (Json, nat))
    requires SanitizeValue(v, depth, rules).None?
    ensures Lies(v, r.0, r.1) && (depth + r.1 > 4 || !Allowed(r.0, rules))
    decreases v
  {
    if depth > 4 || !Allowed(v, rules) then (v, 0)
    else if v.Arr? then
      var i :| 0 <= i < |v.items| && SanitizeValue(v.items[i], depth + 1, rules).None?;
      var r := Offender(v.items[i], depth + 1, rules);
      (r.0, r.1 + 1)
    else
      assert SanitizeObject(v, depth, rules).None?;
      var k :| k in v.fields && SanitizeValue(v.fields[k], depth + 1, rules).None?;
      var r := Offender(v.fields[k], depth + 1, rules);
      (r.0, r.1 + 1)
  }

  /** The keys of every object, at every depth and inside nested arrays too, are in order. */
  predicate FullySorted(j: Json) {
    match j
    case Scalar(_) => true
    case Arr(items) => forall i :: 0 <= i < |items| ==> FullySorted(items[i])
    case Obj(o, f) => o == Sorted(f.Keys) && forall k :: k in f ==> FullySorted(f[k])
  }

  /** What is accepted is the same data, sorted at every depth. */
  lemma {:induction false} SanitizedIsSorted(j: Json, depth: nat, rules: Rules)
    requires j.Obj? && SanitizeObject(j, depth, rules).Some?
    ensures var r := SanitizeObject(j, depth, rules).value; r.Obj? && FullySorted(r) && Permuted(j, r)
    decreases j, 0
  {
    var r := SanitizeObject(j, depth, rules).value;
    assert r.fields.Keys == j.fields.Keys;
    forall k | k in j.fields ensures FullySorted(r.fields[k]) && Permuted(j.fields[k], r.fields[k]) {
      SanitizedValueIsSorted(j.fields[k], depth + 1, rules);
    }
  }

  lemma {:induction false} SanitizedValueIsSorted(v: Json, depth: nat, rules: Rules)
    requires SanitizeValue(v, depth, rules).Some?
    ensures var r := SanitizeValue(v, depth, rules).value; FullySorted(r) && Permuted(v, r)
    decreases v, 1
  {
    match v
    case Scalar(_) =>
    case Obj(_, _) => SanitizedIsSorted(v, depth, rules);
    case Arr(items) => forall i | 0 <= i < |items| { SanitizedValueIsSorted(items[i], depth + 1, rules); }
  }

  lemma {:induction false} FullySortedIsWellFormed(j: Json)
    requires FullySorted(j)
    ensures WellFormed(j) && (j.Obj? ==> SortObject(j) == j)
    decreases j, 0
  {
    match j
    case Scalar(_) =>
    case Arr(items) => forall i | 0 <= i < |items| { FullySortedIsWellFormed(items[i]); }
    case Obj(o, f) =>
      SortedAscends(f.Keys);
      forall k | k in f ensures WellFormed(f[k]) && SortValue(f[k]) == f[k] {
        FullySortedIsWellFormed(f[k]);
        FullySortedValue(f[k]);
      }
      assert SortObject(j).fields == f;
  }

  lemma {:induction false} FullySortedValue(v: Json)
    requires FullySorted(v)
    ensures SortValue(v) == v
    decreases v, 1
  {
    match v
    case Scalar(_) =>
    case Obj(_, _) => FullySortedIsWellFormed(v);
    case Arr(items) =>
      forall i | 0 <= i < |items| ensures SortValue(v).items[i] == items[i] {
        if items[i].Obj? { FullySortedIsWellFormed(items[i]); }
      }
  }
}
