/** Permission lists: the loops of server/internal/platform/service.go against sets and order. */
module Permissions {
  import opened Types

  // ---------- reference definitions ----------

  predicate NoDuplicates<T(==)>(s: seq<T>) {
    forall i, j :: 0 <= i < j < |s| ==> s[i] != s[j]
  }

  /** Every element of a is in b. */
  predicate Within(a: seq<Permission>, b: seq<Permission>) {
    forall p :: p in a ==> p in b
  }

  predicate ValidGrant(p: seq<Permission>) {
    View in p && NoDuplicates(p) && forall x :: x in p ==> !x.Unknown?
  }

  predicate Controls(p: seq<Permission>) {
    Mouse in p || Keyboard in p
  }

  predicate IsControl(p: Permission) {
    p == Mouse || p == Keyboard
  }

  /** The list without mouse and keyboard, in the same order. */
  function WithoutControl(p: seq<Permission>): seq<Permission> {
    if p == [] then []
    else
      var front, last := WithoutControl(p[..|p| - 1]), p[|p| - 1];
      if IsControl(last) then front else front + [last]
  }

  /** The list with the requested control permissions it lacks appended, mouse first. */
  function WithControl(granted: seq<Permission>, requested: seq<Permission>): seq<Permission> {
    AddIfRequested(AddIfRequested(granted, requested, Mouse), requested, Keyboard)
  }

  function AddIfRequested(granted: seq<Permission>, requested: seq<Permission>, p: Permission): seq<Permission> {
    if p in requested && p !in granted then granted + [p] else granted
  }

  lemma {:induction false} WithoutControlKeeps(p: seq<Permission>)
    ensures forall x :: x in WithoutControl(p) <==> x in p && !IsControl(x)
    ensures NoDuplicates(p) ==> NoDuplicates(WithoutControl(p))
  {
    if p != [] {
      WithoutControlKeeps(p[..|p| - 1]);
      assert p == p[..|p| - 1] + [p[|p| - 1]];
    }
  }

  lemma WithControlAdds(granted: seq<Permission>, requested: seq<Permission>)
    ensures forall x :: x in WithControl(granted, requested) <==>
                        x in granted || (x in requested && IsControl(x))
    ensures NoDuplicates(granted) ==> NoDuplicates(WithControl(granted, requested))
  {
    AddedIfRequested(granted, requested, Mouse);
    AddedIfRequested(AddIfRequested(granted, requested, Mouse), requested, Keyboard);
  }

  lemma AddedIfRequested(granted: seq<Permission>, requested: seq<Permission>, p: Permission)
    ensures forall x :: x in AddIfRequested(granted, requested, p) <==> x in granted || (x == p && p in requested)
    ensures NoDuplicates(granted) ==> NoDuplicates(AddIfRequested(granted, requested, p))
  {
  }

  // ---------- the known permissions are thirteen ----------

  const KNOWN: set<Permission> :=
    {View, Mouse, Keyboard, Files, Clipboard, Audio, Microphone, SystemInfo,
     RestartApp, RestartComputer, Record, AiAnalysis, Workflows}

  lemma KnownIsNotUnknown(p: Permission)
    ensures p in KNOWN <==> !p.Unknown?
  {
  }

  lemma {:induction false} ElementsCount(p: seq<Permission>)
    requires NoDuplicates(p)
    ensures |set x | x in p| == |p|
  {
    if p != [] {
      var front, last := p[..|p| - 1], p[|p| - 1];
      ElementsCount(front);
      assert p == front + [last];
      assert (set x | x in p) == (set x | x in front) + {last};
      assert last !in front;
    }
  }

  /** The source's length test cannot fail for a list that passes the others. */
  lemma ValidGrantIsShort(p: seq<Permission>)
    requires ValidGrant(p)
    ensures 1 <= |p| <= |KNOWN|
  {
    ElementsCount(p);
    var elements := set x | x in p;
    forall x | x in elements ensures x in KNOWN {
      KnownIsNotUnknown(x);
    }
    SubsetSize(elements, KNOWN);
  }

  lemma {:induction false} SubsetSize<T>(a: set<T>, b: set<T>)
    requires a <= b
    ensures |a| <= |b|
  {
    if a != {} {
      var x :| x in a;
      SubsetSize(a - {x}, b - {x});
    }
  }

  // ---------- the loops ----------

  method Contains(p: seq<Permission>, v: Permission) returns (found: bool)
    ensures found <==> v in p
  {
    for i := 0 to |p|
      invariant v !in p[..i]
    {
      if p[i] == v {
        return true;
      }
    }
    return false;
  }

  method HasControl(p: seq<Permission>) returns (r: bool)
    ensures r <==> Controls(p)
  {
    r := Contains(p, Mouse);
    if !r {
      r := Contains(p, Keyboard);
    }
  }

  method ValidPermissions(p: seq<Permission>) returns (ok: bool)
    ensures ok <==> ValidGrant(p)
  {
    if ValidGrant(p) {
      ValidGrantIsShort(p);
    }
    var view := Contains(p, View);
    if |p| == 0 || |p| > |KNOWN| || !view {
      return false;
    }
    var seen := {};
    for i := 0 to |p|
      invariant seen == set x | x in p[..i]
      invariant NoDuplicates(p[..i]) && forall x :: x in p[..i] ==> !x.Unknown?
    {
      KnownIsNotUnknown(p[i]);
      assert p[..i + 1] == p[..i] + [p[i]];
      if p[i] !in KNOWN || p[i] in seen {
        assert p[i] in p;
        return false;
      }
      seen := seen + {p[i]};
    }
    assert p[..|p|] == p;
    return true;
  }

  method Subset(a: seq<Permission>, b: seq<Permission>) returns (ok: bool)
    ensures ok <==> Within(a, b)
  {
    for i := 0 to |a|
      invariant forall j :: 0 <= j < i ==> a[j] in b
    {
      var found := Contains(b, a[i]);
      if !found {
        assert a[i] in a;
        return false;
      }
    }
    return true;
  }

  method StripControl(granted: seq<Permission>) returns (next: seq<Permission>)
    ensures next == WithoutControl(granted)
  {
    next := [];
    for i := 0 to |granted|
      invariant next == WithoutControl(granted[..i])
    {
      assert granted[..i + 1][..i] == granted[..i];
      if granted[i] != Mouse && granted[i] != Keyboard {
        next := next + [granted[i]];
      }
    }
    assert granted[..|granted|] == granted;
  }

  method AddControl(granted: seq<Permission>, requested: seq<Permission>) returns (next: seq<Permission>)
    ensures next == WithControl(granted, requested)
  {
    next := granted;
    var wanted := Contains(requested, Mouse);
    var held := Contains(next, Mouse);
    if wanted && !held {
      next := next + [Mouse];
    }
    wanted := Contains(requested, Keyboard);
    held := Contains(next, Keyboard);
    if wanted && !held {
      next := next + [Keyboard];
    }
  }
}
