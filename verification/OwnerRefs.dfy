/**
  Owner-reference lists, which are Go slices edited in place (cluster-api/util/util.go).
 */
module OwnerRefs {
  import opened Common

  datatype OwnerReference = OwnerReference(apiVersion: string, kind: string, name: string, uid: string)

  // ------------------------------------------------------------------ references to the same object

  function Slashes(s: string): nat {
    if s == "" then 0 else (if s[0] == '/' then 1 else 0) + Slashes(s[1..])
  }

  function BeforeSlash(s: string): string {
    if s == "" || s[0] == '/' then "" else [s[0]] + BeforeSlash(s[1..])
  }

  /** The group of an API version; None when it does not parse. */
  function Group(apiVersion: string): Option<string> {
    if apiVersion == "" || apiVersion == "/" || Slashes(apiVersion) == 0 then Some("")
    else if Slashes(apiVersion) == 1 then Some(BeforeSlash(apiVersion))
    else None
  }

  predicate Parses(r: OwnerReference) {
    Group(r.apiVersion).Some?
  }

  /** Same group, kind and name; version and UID do not matter. A reference that does not parse equals none. */
  predicate SameObject(a: OwnerReference, b: OwnerReference) {
    Parses(a) && Parses(b) && Group(a.apiVersion) == Group(b.apiVersion) && a.kind == b.kind && a.name == b.name
  }

  lemma {:induction false} SlashFree(g: string, rest: string)
    requires Slashes(g) == 0
    ensures Slashes(g + "/" + rest) == 1 + Slashes(rest)
    ensures BeforeSlash(g + "/" + rest) == g
  {
    var s := g + "/" + rest;
    if g == "" {
      assert s[1..] == rest;
    } else {
      SlashFree(g[1..], rest);
      assert s[1..] == g[1..] + "/" + rest;
    }
  }

  /** "group/version" parses to its group, whatever the version. */
  lemma GroupOfVersion(g: string, version: string)
    requires Slashes(g) == 0 && Slashes(version) == 0
    ensures Group(g + "/" + version) == Some(g)
  {
    SlashFree(g, version);
  }

  /** So "group/version" references are to the same object exactly when group, kind and name agree. */
  lemma VersionDoesNotMatter(a: OwnerReference, b: OwnerReference, g: string, v: string, g': string, v': string)
    requires Slashes(g) == 0 && Slashes(v) == 0 && Slashes(g') == 0 && Slashes(v') == 0
    requires a.apiVersion == g + "/" + v && b.apiVersion == g' + "/" + v'
    ensures SameObject(a, b) <==> g == g' && a.kind == b.kind && a.name == b.name
  {
    GroupOfVersion(g, v);
    GroupOfVersion(g', v');
  }

  /** On references that parse, and only there, referring to the same object is reflexive; it is an equivalence. */
  lemma SameObjectIsEquivalence(a: OwnerReference, b: OwnerReference, c: OwnerReference)
    ensures SameObject(a, a) <==> Parses(a)
    ensures SameObject(a, b) ==> SameObject(b, a)
    ensures SameObject(a, b) && SameObject(b, c) ==> SameObject(a, c)
  {
  }

  // ------------------------------------------------------------------ the operations on values

  /** The first reference to the same object, or -1. */
  function Index(l: seq<OwnerReference>, ref: OwnerReference): (i: int)
    ensures -1 <= i < |l|
    ensures i == -1 ==> forall k :: 0 <= k < |l| ==> !SameObject(l[k], ref)
    ensures i >= 0 ==> SameObject(l[i], ref) && forall k :: 0 <= k < i ==> !SameObject(l[k], ref)
  {
    if l == [] then -1
    else if SameObject(l[0], ref) then 0
    else var i := Index(l[1..], ref); if i == -1 then -1 else i + 1
  }

  predicate Has(l: seq<OwnerReference>, ref: OwnerReference) {
    Index(l, ref) >= 0
  }

  function Ensured(l: seq<OwnerReference>, ref: OwnerReference): seq<OwnerReference> {
    var i := Index(l, ref);
    if i == -1 then l + [ref] else l[i := ref]
  }

  function Removed(l: seq<OwnerReference>, ref: OwnerReference): seq<OwnerReference> {
    var i := Index(l, ref);
    if i == -1 then l else l[..i] + l[i + 1..]
  }

  // ------------------------------------------------------------------ the code, in place

  /** A Go slice: the first `len` elements of an array whose length is the capacity. */
  datatype Slice = Slice(arr: array<OwnerReference>, len: nat)

  ghost predicate Valid(s: Slice) {
    s.len <= s.arr.Length
  }

  function Contents(s: Slice): seq<OwnerReference>
    requires Valid(s)
    reads s.arr
  {
    s.arr[..s.len]
  }

  method IndexOwnerRef(s: Slice, ref: OwnerReference) returns (index: int)
    requires Valid(s)
    ensures index == Index(Contents(s), ref)
    ensures -1 <= index < s.len
  {
    index := 0;
    while index < s.len
      invariant 0 <= index <= s.len
      invariant forall k :: 0 <= k < index ==> !SameObject(Contents(s)[k], ref)
    {
      if SameObject(s.arr[index], ref) {
        assert SameObject(Contents(s)[index], ref);
        return;
      }
      index := index + 1;
    }
    index := -1;
  }

  method HasOwnerRef(s: Slice, ref: OwnerReference) returns (has: bool)
    requires Valid(s)
    ensures has <==> exists k :: 0 <= k < s.len && SameObject(s.arr[k], ref)
  {
    var i := IndexOwnerRef(s, ref);
    has := i > -1;
    if has {
      assert SameObject(s.arr[i], ref);
    } else {
      assert forall k :: 0 <= k < s.len ==> s.arr[k] == Contents(s)[k];
    }
  }

  /** Go's append of one element: in place while the capacity lasts, otherwise into a new array. */
  method Append(s: Slice, ref: OwnerReference) returns (r: Slice)
    requires Valid(s)
    modifies s.arr
    ensures Valid(r) && if s.len < s.arr.Length then r.arr == s.arr else fresh(r.arr)
    ensures Contents(r) == old(Contents(s)) + [ref]
    ensures Contents(s) == old(Contents(s))
  {
    if s.len < s.arr.Length {
      s.arr[s.len] := ref;
      r := Slice(s.arr, s.len + 1);
    } else {
      var arr := new OwnerReference[2 * s.len + 1](i requires 0 <= i reads s.arr =>
        if i < s.arr.Length then s.arr[i] else ref);
      r := Slice(arr, s.len + 1);
      assert forall k :: 0 <= k < s.len ==> arr[k] == s.arr[k];
    }
  }

  method EnsureOwnerRef(s: Slice, ref: OwnerReference) returns (r: Slice)
    requires Valid(s)
    modifies s.arr
    ensures Valid(r) && if old(Has(Contents(s), ref)) || s.len < s.arr.Length then r.arr == s.arr else fresh(r.arr)
    ensures Contents(r) == Ensured(old(Contents(s)), ref)
  {
    var idx := IndexOwnerRef(s, ref);
    if idx == -1 {
      r := Append(s, ref);
      return;
    }
    s.arr[idx] := ref;
    r := s;
  }

  /** Go's append(s[:index], s[index+1:]...): the elements behind `index` move up in the same array. */
  method CloseGap(s: Slice, index: nat) returns (r: Slice)
    requires Valid(s) && index < s.len
    modifies s.arr
    ensures r == Slice(s.arr, s.len - 1)
    ensures Contents(r) == old(Contents(s)[..index] + Contents(s)[index + 1..])
    ensures s.arr[s.len - 1] == old(s.arr[s.len - 1])
  {
    var k := index;
    while k < s.len - 1
      invariant index <= k <= s.len - 1
      invariant forall j :: 0 <= j < index ==> s.arr[j] == old(s.arr[j])
      invariant forall j :: index <= j < k ==> s.arr[j] == old(s.arr[j + 1])
      invariant forall j :: k <= j < s.len ==> s.arr[j] == old(s.arr[j])
    {
      s.arr[k] := s.arr[k + 1];
      k := k + 1;
    }
    r := Slice(s.arr, s.len - 1);
  }

  /** The slice that was passed in still has its length, so it ends in a duplicate. */
  method RemoveOwnerRef(s: Slice, ref: OwnerReference) returns (r: Slice)
    requires Valid(s)
    modifies s.arr
    ensures Valid(r) && r.arr == s.arr
    ensures Contents(r) == Removed(old(Contents(s)), ref)
    ensures r.len < s.len ==> Contents(s) == Contents(r) + [old(s.arr[s.len - 1])]
  {
    var index := IndexOwnerRef(s, ref);
    if index == -1 {
      return s;
    }
    r := CloseGap(s, index);
    assert s.arr[..s.len] == s.arr[..s.len - 1] + [s.arr[s.len - 1]];
  }

  // ------------------------------------------------------------------ laws

  /** No two references of the list are to the same object. */
  ghost predicate Unique(l: seq<OwnerReference>) {
    forall i, j :: 0 <= i < j < |l| ==> !SameObject(l[i], l[j])
  }

  /** Ensuring leaves the list unique; the reference is in it as given, with its version and UID. */
  lemma EnsureKeepsUnique(l: seq<OwnerReference>, ref: OwnerReference)
    requires Unique(l)
    ensures Unique(Ensured(l, ref))
    ensures ref in Ensured(l, ref)
  {
    var n := Ensured(l, ref);
    var i := Index(l, ref);
    if i == -1 {
      assert n[|l|] == ref;
    } else {
      assert n[i] == ref;
      forall k | 0 <= k < |l| && k != i ensures !SameObject(n[k], ref) && !SameObject(ref, n[k]) {
        if k < i {
          assert !SameObject(l[k], l[i]);
        } else {
          assert !SameObject(l[i], l[k]);
        }
      }
    }
  }

  lemma RemoveKeepsUnique(l: seq<OwnerReference>, ref: OwnerReference)
    requires Unique(l)
    ensures Unique(Removed(l, ref))
  {
    var i := Index(l, ref);
    if i >= 0 {
      var n := Removed(l, ref);
      forall a, b | 0 <= a < b < |n| ensures !SameObject(n[a], n[b]) {
        assert n[a] == l[if a < i then a else a + 1];
        assert n[b] == l[if b < i then b else b + 1];
      }
    }
  }

  /** The first match of a list is found whatever follows, and matches nothing before it. */
  lemma IndexIs(l: seq<OwnerReference>, ref: OwnerReference, i: int)
    requires 0 <= i < |l| && SameObject(l[i], ref)
    requires forall k :: 0 <= k < i ==> !SameObject(l[k], ref)
    ensures Index(l, ref) == i
  {
    assert Index(l, ref) != -1;
  }

  /** A second time changes nothing, and the reference is found, exactly when it parses. */
  lemma EnsureIdempotentIff(l: seq<OwnerReference>, ref: OwnerReference)
    ensures Ensured(Ensured(l, ref), ref) == Ensured(l, ref) <==> Parses(ref)
    ensures Has(Ensured(l, ref), ref) <==> Parses(ref)
  {
    var n := Ensured(l, ref);
    if Parses(ref) {
      var i := if Index(l, ref) == -1 then |l| else Index(l, ref);
      IndexIs(n, ref, i);
    } else {
      assert |Ensured(n, ref)| == |n| + 1;
    }
  }

  /** "a/b/c" does not parse: each call appends the reference once more, and it is never found. */
  lemma UnparsedIsAppended(l: seq<OwnerReference>, kind: string, name: string, uid: string)
    ensures var ref := OwnerReference("a/b/c", kind, name, uid);
      && !Parses(ref) && !Has(Ensured(l, ref), ref)
      && Ensured(Ensured(l, ref), ref) == l + [ref, ref]
  {
    var ref := OwnerReference("a/b/c", kind, name, uid);
    SlashFree("a", "b/c");
    SlashFree("b", "c");
    assert "a/b/c" == "a" + "/" + "b/c" && "b/c" == "b" + "/" + "c";
    EnsureIdempotentIff(l, ref);
    assert l + [ref] + [ref] == l + [ref, ref];
  }

  /** Removing undoes ensuring exactly when the reference parses and was not there. */
  lemma RemoveUndoesEnsureIff(l: seq<OwnerReference>, ref: OwnerReference)
    ensures Removed(Ensured(l, ref), ref) == l <==> Parses(ref) && !Has(l, ref)
  {
    var n := Ensured(l, ref);
    if Parses(ref) {
      var i := if Index(l, ref) == -1 then |l| else Index(l, ref);
      IndexIs(n, ref, i);
      assert |Removed(n, ref)| == |n| - 1;
      if i == |l| {
        assert Removed(n, ref) == l;
      }
    }
  }

  /** How many references of the list are to the same object as `ref`. */
  function Matches(l: seq<OwnerReference>, ref: OwnerReference): nat {
    if l == [] then 0 else (if SameObject(l[0], ref) then 1 else 0) + Matches(l[1..], ref)
  }

  /** The references to other objects, in order. */
  function Others(l: seq<OwnerReference>, ref: OwnerReference): seq<OwnerReference> {
    if l == [] then [] else (if SameObject(l[0], ref) then [] else [l[0]]) + Others(l[1..], ref)
  }

  lemma {:induction false} MatchesSplit(a: seq<OwnerReference>, b: seq<OwnerReference>, ref: OwnerReference)
    ensures Matches(a + b, ref) == Matches(a, ref) + Matches(b, ref)
  {
    if a == [] {
      assert a + b == b;
    } else {
      MatchesSplit(a[1..], b, ref);
      assert (a + b)[1..] == a[1..] + b && (a + b)[0] == a[0];
    }
  }

  lemma {:induction false} OthersSplit(a: seq<OwnerReference>, b: seq<OwnerReference>, ref: OwnerReference)
    ensures Others(a + b, ref) == Others(a, ref) + Others(b, ref)
  {
    if a == [] {
      assert a + b == b;
    } else {
      OthersSplit(a[1..], b, ref);
      assert (a + b)[1..] == a[1..] + b && (a + b)[0] == a[0];
    }
  }

  lemma Splits(a: seq<OwnerReference>, b: seq<OwnerReference>, ref: OwnerReference)
    ensures Matches(a + b, ref) == Matches(a, ref) + Matches(b, ref)
    ensures Others(a + b, ref) == Others(a, ref) + Others(b, ref)
  {
    MatchesSplit(a, b, ref);
    OthersSplit(a, b, ref);
  }

  lemma SplitAt(l: seq<OwnerReference>, ref: OwnerReference, i: nat, r: OwnerReference)
    requires i < |l|
    ensures Matches(l[i := r], ref) == Matches(l[..i], ref) + Matches([r], ref) + Matches(l[i + 1..], ref)
    ensures Others(l[i := r], ref) == Others(l[..i], ref) + Others([r], ref) + Others(l[i + 1..], ref)
  {
    assert l[i := r] == l[..i] + [r] + l[i + 1..];
    Splits(l[..i] + [r], l[i + 1..], ref);
    Splits(l[..i], [r], ref);
  }

  /** Removing takes one match away, if there is one, and no reference to another object. */
  lemma RemoveTakesOne(l: seq<OwnerReference>, ref: OwnerReference)
    ensures Matches(Removed(l, ref), ref) == if Has(l, ref) then Matches(l, ref) - 1 else Matches(l, ref)
    ensures Others(Removed(l, ref), ref) == Others(l, ref)
  {
    var i := Index(l, ref);
    if i >= 0 {
      SplitAt(l, ref, i, l[i]);
      assert l[i := l[i]] == l;
      Splits(l[..i], l[i + 1..], ref);
    }
  }

  lemma {:induction false} NoneMatch(l: seq<OwnerReference>, ref: OwnerReference)
    ensures Matches(l, ref) == 0 <==> !Has(l, ref)
  {
    if l == [] {
    } else {
      NoneMatch(l[1..], ref);
    }
  }

  /** Ensuring touches no reference to another object, and adds a match only where there was none. */
  lemma EnsureKeepsOthers(l: seq<OwnerReference>, ref: OwnerReference)
    requires Parses(ref)
    ensures Others(Ensured(l, ref), ref) == Others(l, ref)
    ensures Matches(Ensured(l, ref), ref) == if Has(l, ref) then Matches(l, ref) else 1
  {
    var i := Index(l, ref);
    if i == -1 {
      Splits(l, [ref], ref);
      NoneMatch(l, ref);
    } else {
      SplitAt(l, ref, i, l[i]);
      assert l[i := l[i]] == l;
      SplitAt(l, ref, i, ref);
    }
  }

  /** After removing, the reference is gone exactly when it was there at most once. */
  lemma RemoveClearsIff(l: seq<OwnerReference>, ref: OwnerReference)
    ensures !Has(Removed(l, ref), ref) <==> Matches(l, ref) <= 1
  {
    RemoveTakesOne(l, ref);
    NoneMatch(l, ref);
    NoneMatch(Removed(l, ref), ref);
  }

  /** In a unique list a reference is there at most once, so removing it always clears it. */
  lemma {:induction false} UniqueMatches(l: seq<OwnerReference>, ref: OwnerReference)
    requires Unique(l)
    ensures Matches(l, ref) <= 1
  {
    if l == [] {
    } else {
      var rest := l[1..];
      assert forall i, j :: 0 <= i < j < |rest| ==> rest[i] == l[i + 1] && rest[j] == l[j + 1];
      UniqueMatches(rest, ref);
      if SameObject(l[0], ref) {
        forall k | 0 <= k < |rest| ensures !SameObject(rest[k], ref) {
          assert rest[k] == l[k + 1] && !SameObject(l[0], l[k + 1]);
        }
        NoneMatch(rest, ref);
      }
    }
  }
}
