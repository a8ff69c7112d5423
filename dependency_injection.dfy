/**
 * The framework's service-collection operations the facade builds on
 * (Microsoft.Extensions.DependencyInjection and its Extensions namespace,
 * and the LINQ queries the facade runs over a collection). Their code is
 * not part of this model; each is written out here with a contract that
 * states its documented behaviour.
 */
module DependencyInjection {
  import opened Types

  /** The elements of `s` satisfying `p`, in order (`Where(p)`). */
  function Filter(s: seq<Descriptor>, p: Descriptor -> bool): (r: seq<Descriptor>)
    ensures |r| <= |s|
    ensures forall d :: d in r <==> d in s && p(d)
  {
    if s == [] then []
    else (if p(s[0]) then [s[0]] else []) + Filter(s[1..], p)
  }

  /** The number of elements satisfying `p`. */
  function Count(s: seq<Descriptor>, p: Descriptor -> bool): nat {
    |Filter(s, p)|
  }

  function Not(p: Descriptor -> bool): Descriptor -> bool {
    (d: Descriptor) => !p(d)
  }

  /** Whether a registration is one of service type `t`. */
  function OfServiceType(t: Ty): Descriptor -> bool {
    (d: Descriptor) => d.serviceType == t
  }

  /** The position of the first element satisfying `p`, if any. */
  function FirstIndex(s: seq<Descriptor>, p: Descriptor -> bool): (r: Option<nat>)
    ensures r.Some? ==> r.value < |s| && p(s[r.value]) && forall j :: 0 <= j < r.value ==> !p(s[j])
    ensures r.None? <==> forall j :: 0 <= j < |s| ==> !p(s[j])
  {
    if s == [] then None
    else if p(s[0]) then Some(0)
    else match FirstIndex(s[1..], p)
      case None => None
      case Some(i) => Some(i + 1)
  }

  /** The position of the last element satisfying `p`, if any. */
  function LastIndex(s: seq<Descriptor>, p: Descriptor -> bool): (r: Option<nat>)
    ensures r.Some? ==> r.value < |s| && p(s[r.value]) && forall j :: r.value < j < |s| ==> !p(s[j])
    ensures r.None? <==> forall j :: 0 <= j < |s| ==> !p(s[j])
  {
    if s == [] then None
    else if p(s[|s| - 1]) then Some(|s| - 1)
    else LastIndex(s[..|s| - 1], p)
  }

  /** `First(p)`: the first element satisfying `p`; InvalidOperationException when none does. */
  function First(s: seq<Descriptor>, p: Descriptor -> bool): (r: Result<Descriptor>)
    ensures r.Err? <==> forall d :: d in s ==> !p(d)
    ensures r.Err? ==> r.failure == InvalidOperation
    ensures r.Ok? ==> exists i :: 0 <= i < |s| && s[i] == r.value && p(s[i]) && forall j :: 0 <= j < i ==> !p(s[j])
  {
    match FirstIndex(s, p)
    case None => Err(InvalidOperation)
    case Some(i) => Ok(s[i])
  }

  /** The collection without its `i`-th element. */
  function RemoveAt(s: seq<Descriptor>, i: nat): (r: seq<Descriptor>)
    requires i < |s|
    ensures |r| == |s| - 1
  {
    s[..i] + s[i + 1..]
  }

  /**
   * `FirstOrDefault(p)` followed by `Remove` of that element when it exists:
   * removes the first element satisfying `p` and is a no-op when none does.
   * (`Remove` drops the first element equal to its argument; no element before
   * the first match can equal it, because that element would match too.)
   */
  function RemoveFirst(s: seq<Descriptor>, p: Descriptor -> bool): (r: seq<Descriptor>)
    ensures |r| == if exists d :: d in s && p(d) then |s| - 1 else |s|
  {
    match FirstIndex(s, p)
    case None => s
    case Some(i) => RemoveAt(s, i)
  }

  /** Whether a registration equals `x`. */
  function EqualTo(x: Descriptor): Descriptor -> bool {
    (d: Descriptor) => d == x
  }

  /** `ICollection.Remove(item)`: removes the first element equal to `x`; a no-op when there is none. */
  function Remove(s: seq<Descriptor>, x: Descriptor): (r: seq<Descriptor>)
    ensures x !in s ==> r == s
    ensures x in s ==> exists i :: 0 <= i < |s| && s[i] == x && (forall j :: 0 <= j < i ==> s[j] != x) && r == RemoveAt(s, i)
    ensures x in s ==> |r| == |s| - 1
    ensures Filter(r, Not(EqualTo(x))) == Filter(s, Not(EqualTo(x)))
  {
    RemoveFirstCounts(s, EqualTo(x));
    RemoveFirst(s, EqualTo(x))
  }

  /** `FirstOrDefault(p)`: the first element satisfying `p`, or null. */
  function FirstOrDefault(s: seq<Descriptor>, p: Descriptor -> bool): (r: Option<Descriptor>)
    ensures r.None? <==> forall d :: d in s ==> !p(d)
    ensures r.Some? ==> First(s, p) == Ok(r.value)
  {
    match First(s, p)
    case Ok(d) => Some(d)
    case Err(_) => None
  }

  /** `Single(p)`: the only element satisfying `p`; InvalidOperationException when there is none or more than one. */
  function Single(s: seq<Descriptor>, p: Descriptor -> bool): (r: Result<Descriptor>)
    ensures r.Ok? <==> Count(s, p) == 1
    ensures r.Ok? ==> r.value in s && p(r.value) && forall d :: d in s && p(d) ==> d == r.value
    ensures r.Err? ==> r.failure == InvalidOperation
  {
    var matching := Filter(s, p);
    if |matching| == 1 then
      assert matching[0] in matching;
      Ok(matching[0])
    else Err(InvalidOperation)
  }

  /** `Replace(descriptor)`: removes the first registration of the same service type, then appends `d`. */
  function Replace(s: seq<Descriptor>, d: Descriptor): (r: seq<Descriptor>)
    ensures |r| > 0 && r[|r| - 1] == d
    ensures r[..|r| - 1] == RemoveFirst(s, OfServiceType(d.serviceType))
  {
    RemoveFirst(s, OfServiceType(d.serviceType)) + [d]
  }

  /** `RemoveAll(serviceType)`: removes every registration of `t`, keeping the others in order. */
  function RemoveAll(s: seq<Descriptor>, t: Ty): (r: seq<Descriptor>)
    ensures forall d :: d in r ==> d.serviceType != t
    ensures forall d :: d in s && d.serviceType != t ==> d in r
    ensures |r| == |s| - Count(s, OfServiceType(t))
    ensures r == Filter(s, Not(OfServiceType(t)))
  {
    FilterPartition(s, OfServiceType(t));
    Filter(s, Not(OfServiceType(t)))
  }

  /** `TryAddSingleton<TService>(instance)`: registers `o` for `t` only when `t` has no registration yet. */
  function TryAddSingleton(s: seq<Descriptor>, t: Ty, o: Obj): (r: seq<Descriptor>)
    ensures (exists d :: d in s && d.serviceType == t) ==> r == s
    ensures (forall d :: d in s ==> d.serviceType != t) ==> r == s + [InstanceDescriptor(t, o)]
  {
    if exists d :: d in s && d.serviceType == t then s else s + [InstanceDescriptor(t, o)]
  }

  /**
   * `GetService<TService>()` on a provider built from a collection whose
   * registrations are all instances: the instance of the LAST registration
   * of `t`, or null when there is none.
   */
  function GetService(s: seq<Descriptor>, t: Ty): (r: Option<Obj>)
    ensures r.None? <==> forall d :: d in s ==> d.serviceType != t || !d.implementation.ByInstance?
  {
    match LastIndex(s, (d: Descriptor) => d.serviceType == t && d.implementation.ByInstance?)
    case None => None
    case Some(i) => Some(s[i].implementation.instance)
  }

  /** Filtering distributes over concatenation. */
  lemma {:induction false} FilterConcat(a: seq<Descriptor>, b: seq<Descriptor>, p: Descriptor -> bool)
    ensures Filter(a + b, p) == Filter(a, p) + Filter(b, p)
  {
    if a == [] {
      assert a + b == b;
    } else {
      assert (a + b)[0] == a[0];
      assert (a + b)[1..] == a[1..] + b;
      FilterConcat(a[1..], b, p);
    }
  }

  /** How often each registration occurs in `Filter(s, p)`: as often as in `s` when `p` accepts it, never otherwise. */
  lemma {:induction false} FilterMultiplicity(s: seq<Descriptor>, p: Descriptor -> bool)
    ensures forall d :: multiset(Filter(s, p))[d] == if p(d) then multiset(s)[d] else 0
  {
    if s != [] {
      FilterMultiplicity(s[1..], p);
      assert s == [s[0]] + s[1..];
    }
  }

  /** Filtering a one-element collection. */
  lemma FilterSingleton(d: Descriptor, p: Descriptor -> bool)
    ensures Filter([d], p) == if p(d) then [d] else []
  {
    assert [d][1..] == [];
  }

  /**
   * Sequence identities around position `i`, proved once for any element
   * type (proving them at `Descriptor` drags in that type's axioms).
   */
  lemma SplitAt<T>(s: seq<T>, i: nat)
    requires i < |s|
    ensures s[..i + 1] == s[..i] + [s[i]]
    ensures s == s[..i + 1] + s[i + 1..]
    ensures s == s[..i] + s[i..] && s[i..] == [s[i]] + s[i + 1..]
  {
  }

  /** A prefix of a prefix is a prefix, and the longest prefix is the whole sequence. */
  lemma PrefixOfPrefix<T>(s: seq<T>, k: nat, n: nat)
    requires k <= n <= |s|
    ensures s[..n][..k] == s[..k]
    ensures s[..|s|] == s
  {
  }

  /** A non-empty sequence is its prefix followed by its last element. */
  lemma InitLast<T>(s: seq<T>)
    requires s != []
    ensures s == s[..|s| - 1] + [s[|s| - 1]]
  {
  }

  /** A non-empty sequence's elements are its head and the elements of its tail. */
  lemma HeadTail<T>(s: seq<T>)
    requires s != []
    ensures s[0] in s
    ensures forall x :: x in s <==> x == s[0] || x in s[1..]
  {
    assert s == [s[0]] + s[1..];
  }

  /** Appending nothing changes nothing. */
  lemma ConcatNil<T>(a: seq<T>)
    ensures a + [] == a
  {
  }

  /** Dropping the last element of `a + b`, for non-empty `b`, drops the last element of `b`. */
  lemma ConcatInit<T>(a: seq<T>, b: seq<T>)
    requires b != []
    ensures (a + b)[..|a + b| - 1] == a + b[..|b| - 1]
    ensures (a + b)[|a + b| - 1] == b[|b| - 1]
  {
  }

  /** The only element of a one-element sequence. */
  lemma OnlyElement<T>(x: T)
    ensures forall y :: y in [x] <==> y == x
  {
  }

  /** The suffix from `i` starts with `s[i]` and continues with the suffix from `i + 1`. */
  lemma Suffix<T>(s: seq<T>, i: nat)
    requires i <= |s|
    ensures s[0..] == s && s[|s|..] == []
    ensures i < |s| ==> s[i..] != [] && s[i..][0] == s[i] && s[i..][1..] == s[i + 1..]
  {
  }

  /** Filtering splits around position `i`. */
  lemma FilterSplit(s: seq<Descriptor>, i: nat, p: Descriptor -> bool)
    requires i < |s|
    ensures Filter(s, p) == Filter(s[..i], p) + Filter([s[i]], p) + Filter(s[i + 1..], p)
  {
    SplitAt(s, i);
    FilterConcat(s[..i + 1], s[i + 1..], p);
    FilterConcat(s[..i], [s[i]], p);
  }

  /** Filtering the collection without its `i`-th element. */
  lemma FilterRemoveAt(s: seq<Descriptor>, i: nat, p: Descriptor -> bool)
    requires i < |s|
    ensures Filter(RemoveAt(s, i), p) == Filter(s[..i], p) + Filter(s[i + 1..], p)
  {
    FilterConcat(s[..i], s[i + 1..], p);
  }

  /** Filtering splits around position `i`, and removing position `i` drops only its part. */
  lemma FilterAround(s: seq<Descriptor>, i: nat, p: Descriptor -> bool)
    requires i < |s|
    ensures Filter(s, p) == Filter(s[..i], p) + Filter([s[i]], p) + Filter(s[i + 1..], p)
    ensures Filter(RemoveAt(s, i), p) == Filter(s[..i], p) + Filter(s[i + 1..], p)
  {
    FilterSplit(s, i, p);
    FilterRemoveAt(s, i, p);
  }

  /** Removing an element `p` rejects leaves `Filter(_, p)` as it was. */
  lemma FilterRemoveAtUnmatched(s: seq<Descriptor>, i: nat, p: Descriptor -> bool)
    requires i < |s| && !p(s[i])
    ensures Filter(RemoveAt(s, i), p) == Filter(s, p)
  {
    FilterAround(s, i, p);
    FilterSingleton(s[i], p);
  }

  /** Removing an element `p` accepts takes exactly one element out of `Filter(_, p)`. */
  lemma FilterRemoveAtMatched(s: seq<Descriptor>, i: nat, p: Descriptor -> bool)
    requires i < |s| && p(s[i])
    ensures |Filter(RemoveAt(s, i), p)| == |Filter(s, p)| - 1
  {
    FilterAround(s, i, p);
    FilterSingleton(s[i], p);
  }

  /** A filter that accepts everything in `s` yields `s`. */
  lemma {:induction false} FilterAll(s: seq<Descriptor>, p: Descriptor -> bool)
    ensures (forall d :: d in s ==> p(d)) ==> Filter(s, p) == s
  {
    if s != [] {
      FilterAll(s[1..], p);
      assert forall d :: d in s[1..] ==> d in s;
    }
  }

  /** A filter that accepts nothing in `s` yields the empty collection. */
  lemma {:induction false} FilterNone(s: seq<Descriptor>, p: Descriptor -> bool)
    requires forall d :: d in s ==> !p(d)
    ensures Filter(s, p) == []
  {
    if s != [] {
      assert s[0] in s;
      assert forall d :: d in s[1..] ==> d in s;
      FilterNone(s[1..], p);
    }
  }

  /**
   * `RemoveFirst` takes out exactly one element satisfying `p` when there is
   * one, and never an element that does not satisfy it.
   */
  lemma RemoveFirstCounts(s: seq<Descriptor>, p: Descriptor -> bool)
    ensures Filter(RemoveFirst(s, p), Not(p)) == Filter(s, Not(p))
    ensures Count(RemoveFirst(s, p), p) == if exists d :: d in s && p(d) then Count(s, p) - 1 else Count(s, p)
  {
    match FirstIndex(s, p)
    case None =>
    case Some(i) =>
      FilterRemoveAtUnmatched(s, i, Not(p));
      FilterRemoveAtMatched(s, i, p);
  }

  /** Appending one element adds it to every filter that accepts it. */
  lemma CountAppend(s: seq<Descriptor>, d: Descriptor, p: Descriptor -> bool)
    ensures Filter(s + [d], p) == Filter(s, p) + (if p(d) then [d] else [])
    ensures Count(s + [d], p) == Count(s, p) + (if p(d) then 1 else 0)
  {
    FilterConcat(s, [d], p);
    FilterSingleton(d, p);
  }

  /**
   * Dropping every element `p` accepts and appending one it accepts leaves
   * that one as the only element `p` accepts, and the others as they were.
   */
  lemma FilterOutThenAppend(s: seq<Descriptor>, p: Descriptor -> bool, d: Descriptor)
    requires p(d)
    ensures Filter(Filter(s, Not(p)) + [d], p) == [d]
    ensures Filter(Filter(s, Not(p)) + [d], Not(p)) == Filter(s, Not(p))
  {
    var kept := Filter(s, Not(p));
    FilterNone(kept, p);
    FilterAll(kept, Not(p));
    CountAppend(kept, d, p);
    CountAppend(kept, d, Not(p));
  }

  /** Every element is kept either by `p` or by its negation. */
  lemma {:induction false} FilterPartition(s: seq<Descriptor>, p: Descriptor -> bool)
    ensures |Filter(s, p)| + |Filter(s, Not(p))| == |s|
  {
    if s != [] {
      FilterPartition(s[1..], p);
    }
  }

  /** Removing the first match of `p` takes the head off `Filter(s, p)`. */
  lemma RemoveFirstFilter(s: seq<Descriptor>, p: Descriptor -> bool)
    ensures FirstIndex(s, p).Some? ==> Filter(s, p) != [] && Filter(s, p)[0] == s[FirstIndex(s, p).value]
    ensures Filter(RemoveFirst(s, p), p) == if Filter(s, p) == [] then [] else Filter(s, p)[1..]
  {
    match FirstIndex(s, p)
    case None =>
      FilterNone(s, p);
    case Some(i) =>
      FilterAround(s, i, p);
      FilterSingleton(s[i], p);
      FilterNone(s[..i], p);
  }

  /**
   * Removing, by value, the first element found by `p` removes exactly that
   * position: no earlier element can equal it, since it would satisfy `p`.
   */
  lemma RemoveFound(s: seq<Descriptor>, p: Descriptor -> bool)
    requires First(s, p).Ok?
    ensures Remove(s, First(s, p).value) == RemoveFirst(s, p)
  {
    var i := FirstIndex(s, p).value;
    var q := EqualTo(s[i]);
    forall j | 0 <= j < i
      ensures !q(s[j])
    {
      assert !p(s[j]);
    }
    FirstIndexIs(s, q, i);
  }

  /** The position of the first element satisfying `p` is the one FirstIndex finds. */
  lemma FirstIndexIs(s: seq<Descriptor>, p: Descriptor -> bool, i: nat)
    requires i < |s| && p(s[i]) && forall j :: 0 <= j < i ==> !p(s[j])
    ensures FirstIndex(s, p) == Some(i)
  {
    var r := FirstIndex(s, p);
    assert r.Some?;
    assert !(r.value < i);
    assert !(i < r.value);
  }

  /**
   * `Replace` keeps one registration of the service type when there was
   * any (one when there was none), the new one last, and leaves every
   * registration of other types, in order.
   */
  lemma ReplaceCounts(s: seq<Descriptor>, d: Descriptor)
    ensures Count(Replace(s, d), OfServiceType(d.serviceType)) ==
      if exists e :: e in s && e.serviceType == d.serviceType then Count(s, OfServiceType(d.serviceType)) else 1
    ensures Filter(Replace(s, d), Not(OfServiceType(d.serviceType))) == Filter(s, Not(OfServiceType(d.serviceType)))
  {
    var p := OfServiceType(d.serviceType);
    RemoveFirstCounts(s, p);
    CountAppend(RemoveFirst(s, p), d, p);
    CountAppend(RemoveFirst(s, p), d, Not(p));
    if !exists e :: e in s && e.serviceType == d.serviceType {
      FilterNone(s, p);
    }
  }
}
