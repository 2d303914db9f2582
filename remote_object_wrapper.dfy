/**
 * Wrappers around remote objects found in an RMI registry: their bound name,
 * the class (remote interface) name, the endpoint they point to, and the
 * list of other wrappers of the same class. handleDuplicates groups the
 * wrappers of a lookup by class name, keeping the first of each class and
 * appending the later ones to its duplicate list.
 */
module RemoteObjects {
  import opened JavaStrings

  /** A TCP endpoint of a remote object. */
  datatype Endpoint = Endpoint(host: string, port: int)

  // ---------------------------------------------------------------------------
  // host:port
  // ---------------------------------------------------------------------------

  /** The target notation: host, a colon, and the port in decimal. */
  function TargetString(host: string, port: int): string {
    host + ":" + IntToString(port)
  }

  /** Index of the last ':' of s, or -1 when there is none. */
  function LastColon(s: string): (k: int)
    ensures -1 <= k < |s|
    ensures k >= 0 ==> s[k] == ':'
    ensures forall j :: k < j < |s| ==> s[j] != ':'
  {
    if s == [] then -1
    else if s[|s| - 1] == ':' then |s| - 1
    else LastColon(s[..|s| - 1])
  }

  /** Reads a target back: the host is everything before the last ':' (so IPv6 hosts survive). */
  function ParseTarget(s: string): Option<Endpoint> {
    var k := LastColon(s);
    if k < 0 then None
    else
      match ParseInt(s[k + 1..])
      case Some(port) => Some(Endpoint(s[..k], port))
      case None => None
  }

  lemma TargetRoundTrip(e: Endpoint)
    ensures ParseTarget(TargetString(e.host, e.port)) == Some(e)
  {
    var digits := IntToString(e.port);
    var s := TargetString(e.host, e.port);
    assert s[|e.host|] == ':';
    assert forall j :: |e.host| < j < |s| ==> s[j] == digits[j - |e.host| - 1];
    assert LastColon(s) == |e.host|;
    assert s[..|e.host|] == e.host;
    assert s[|e.host| + 1..] == digits;
    IntToStringRoundTrip(e.port);
  }

  // ---------------------------------------------------------------------------
  // The wrapper
  // ---------------------------------------------------------------------------

  class RemoteObjectWrapper {
    /** None stands for null. Only `duplicates` is ever updated after construction. */
    const boundName: Option<string>
    const className: Option<string>
    const endpoint: Option<Endpoint>
    const isKnown: bool
    var duplicates: Option<seq<RemoteObjectWrapper>>

    /** The bound-name-only wrapper used for display: every other field stays null. */
    constructor FromBoundName(boundName: string)
      ensures this.boundName == Some(boundName)
      ensures className == None && endpoint == None && !isKnown && duplicates == None
    {
      this.boundName := Some(boundName);
      className := None;
      endpoint := None;
      isKnown := false;
      duplicates := None;
    }

    /**
     * A wrapper of a looked-up remote object, with the fields the reflective
     * constructor extracts from the object's reference given directly.
     */
    constructor Resolved(boundName: Option<string>, className: string, endpoint: Endpoint, isKnown: bool)
      ensures this.boundName == boundName && this.className == Some(className)
      ensures this.endpoint == Some(endpoint) && this.isKnown == isKnown
      ensures duplicates == Some([])
    {
      this.boundName := boundName;
      this.className := Some(className);
      this.endpoint := Some(endpoint);
      this.isKnown := isKnown;
      duplicates := Some([]);
    }

    /** getTarget: "host:port" of the endpoint, from which the endpoint can be read back. */
    function GetTarget(): (r: string)
      requires endpoint.Some?
      ensures ParseTarget(r) == Some(endpoint.value)
      ensures StartsWith(r, endpoint.value.host + ":")
    {
      TargetRoundTrip(endpoint.value);
      TargetString(endpoint.value.host, endpoint.value.port)
    }

    /** hasDuplicates(): the duplicate list is not empty. */
    predicate HasDuplicates(): (r: bool)
      requires duplicates.Some?
      reads this
      ensures r <==> exists d :: d in duplicates.value
    {
      assert |duplicates.value| != 0 ==> duplicates.value[0] in duplicates.value;
      |duplicates.value| != 0
    }

    /** addDuplicate: append one wrapper to the duplicate list. */
    method AddDuplicate(o: RemoteObjectWrapper)
      requires duplicates.Some?
      modifies this`duplicates
      ensures duplicates == Some(old(duplicates.value) + [o])
    {
      duplicates := Some(duplicates.value + [o]);
    }

    /** getDuplicateBoundNames: the bound names of the duplicates, in list order. */
    method GetDuplicateBoundNames() returns (names: seq<Option<string>>)
      requires duplicates.Some?
      ensures |names| == |duplicates.value|
      ensures forall i :: 0 <= i < |names| ==> names[i] == duplicates.value[i].boundName
    {
      names := [];
      for i := 0 to |duplicates.value|
        invariant |names| == i
        invariant forall j :: 0 <= j < i ==> names[j] == duplicates.value[j].boundName
      {
        names := names + [duplicates.value[i].boundName];
      }
    }

    /** getByName: the first non-null wrapper with the given bound name, or null. */
    static method GetByName(boundName: string, list: array<RemoteObjectWrapper?>) returns (r: RemoteObjectWrapper?)
      requires forall i :: 0 <= i < list.Length && list[i] != null ==> list[i].boundName.Some?
      ensures r == null <==> forall i :: 0 <= i < list.Length ==> list[i] == null || list[i].boundName != Some(boundName)
      ensures r != null ==> exists k :: 0 <= k < list.Length && list[k] == r && r.boundName == Some(boundName)
                             && forall j :: 0 <= j < k ==> list[j] == null || list[j].boundName != Some(boundName)
    {
      for i := 0 to list.Length
        invariant forall j :: 0 <= j < i ==> list[j] == null || list[j].boundName != Some(boundName)
      {
        var o := list[i];
        if o != null && o.boundName.value == boundName {
          return o;
        }
      }
      return null;
    }

    /** hasDuplicates(list): some wrapper of the list has a duplicate. */
    static method HasDuplicatesIn(list: array<RemoteObjectWrapper>) returns (r: bool)
      requires forall i :: 0 <= i < list.Length ==> list[i].duplicates.Some?
      ensures r <==> exists i :: 0 <= i < list.Length && list[i].HasDuplicates()
    {
      for i := 0 to list.Length
        invariant forall j :: 0 <= j < i ==> !list[j].HasDuplicates()
      {
        if list[i].HasDuplicates() {
          return true;
        }
      }
      return false;
    }

    /** fromBoundNames: one fresh bound-name-only wrapper per name, at the same index. */
    static method FromBoundNames(boundNames: array<string>) returns (r: array<RemoteObjectWrapper?>)
      ensures fresh(r) && r.Length == boundNames.Length
      ensures forall i :: 0 <= i < r.Length ==>
                r[i] != null && fresh(r[i]) && r[i].boundName == Some(boundNames[i])
                && r[i].className == None && r[i].duplicates == None
    {
      r := new RemoteObjectWrapper?[boundNames.Length];
      for ctr := 0 to boundNames.Length
        invariant forall i :: 0 <= i < ctr ==>
                    r[i] != null && fresh(r[i]) && r[i].boundName == Some(boundNames[i])
                    && r[i].className == None && r[i].duplicates == None
      {
        r[ctr] := new RemoteObjectWrapper.FromBoundName(boundNames[ctr]);
      }
    }

    /**
     * The inner loop of handleDuplicates: append current to the first wrapper
     * of unique with the same class name, if there is one, and return its
     * index, or -1 when there is none. Every other wrapper of ws, the list
     * being grouped, keeps its duplicates.
     */
    static method JoinRepresentative(unique: seq<RemoteObjectWrapper>, current: RemoteObjectWrapper,
                                     ghost ws: seq<RemoteObjectWrapper>) returns (j: int)
      requires forall m :: 0 <= m < |unique| ==> unique[m] in ws && unique[m].className.Some? && unique[m].duplicates.Some?
      requires current.className.Some?
      modifies set k | 0 <= k < |ws| :: ws[k]
      ensures -1 <= j < |unique|
      ensures j == -1 <==> forall m :: 0 <= m < |unique| ==> unique[m].className != current.className
      ensures j >= 0 ==> unique[j].className == current.className
                         && forall m :: 0 <= m < j ==> unique[m].className != current.className
      ensures j >= 0 ==> unique[j].duplicates == Some(old(unique[j].duplicates.value) + [current])
      ensures forall k :: 0 <= k < |ws| && (j < 0 || ws[k] != unique[j]) ==> ws[k].duplicates == old(ws[k].duplicates)
    {
      for k := 0 to |unique|
        invariant forall m :: 0 <= m < k ==> unique[m].className != current.className
        invariant forall n :: 0 <= n < |ws| ==> ws[n].duplicates == old(ws[n].duplicates)
      {
        var other := unique[k];
        if other.className.value == current.className.value {
          other.AddDuplicate(current);
          return k;
        }
      }
      return -1;
    }

    /**
     * One iteration of handleDuplicates' outer loop, for the wrapper
     * current == ws[i]: it joins the representative of its class, or becomes
     * a representative itself when its class has none yet. Every duplicate
     * list goes from its original plus the Dups of the first i wrappers to
     * its original plus the Dups of the first i + 1.
     */
    static method PlaceWrapper(unique: seq<RemoteObjectWrapper>, current: RemoteObjectWrapper,
                               ghost ws: seq<RemoteObjectWrapper>, ghost orig: seq<seq<RemoteObjectWrapper>>, ghost i: int)
      returns (next: seq<RemoteObjectWrapper>)
      requires 0 <= i < |ws| && ws[i] == current && |orig| == |ws|
      requires forall k :: 0 <= k < |ws| ==> ws[k].className.Some?
      requires unique == Unique(ws[..i])
      requires forall k :: 0 <= k < |ws| ==> ws[k].duplicates == Some(orig[k] + Dups(ws[..i], ws[k]))
      modifies set k | 0 <= k < |ws| :: ws[k]
      ensures next == Unique(ws[..i + 1])
      ensures forall k :: 0 <= k < |ws| ==> ws[k].duplicates == Some(orig[k] + Dups(ws[..i + 1], ws[k]))
    {
      assert ws[..i + 1] == ws[..i] + [current];
      UniqueFromList(ws[..i]);
      forall m | 0 <= m < |unique|
        ensures unique[m] in ws && unique[m].className.Some? && unique[m].duplicates.Some?
      {
        assert unique[m] in ws[..i];
        var n :| 0 <= n < i && ws[..i][n] == unique[m];
        assert ws[n] == unique[m];
      }
      var j := JoinRepresentative(unique, current, ws);
      if j < 0 {
        StepNewRepresentative(ws[..i], current);
        next := unique + [current];
      } else {
        var rep := unique[j];
        StepToRepresentative(ws[..i], current, j);
        forall k | 0 <= k < |ws|
          ensures ws[k].duplicates == Some(orig[k] + Dups(ws[..i + 1], ws[k]))
        {
          if ws[k] == rep {
            assert orig[k] + Dups(ws[..i], rep) + [current] == orig[k] + (Dups(ws[..i], rep) + [current]);
          }
        }
        next := unique;
      }
    }

    /**
     * handleDuplicates: one pass over the list; a wrapper whose class name
     * already has a representative is appended to that representative's
     * duplicates, any other becomes a representative. The result holds the
     * representatives in the order they were first seen.
     */
    static method HandleDuplicates(list: array<RemoteObjectWrapper>) returns (result: array<RemoteObjectWrapper>)
      requires forall i :: 0 <= i < list.Length ==> list[i].className.Some? && list[i].duplicates.Some?
      modifies set i | 0 <= i < list.Length :: list[i]
      ensures fresh(result)
      ensures result[..] == Unique(list[..])
      ensures forall i :: 0 <= i < list.Length ==>
                list[i].duplicates == Some(old(list[i].duplicates.value) + Dups(list[..], list[i]))
    {
      ghost var ws := list[..];
      ghost var orig := DuplicateLists(list, list.Length);
      var unique: seq<RemoteObjectWrapper> := [];
      forall k | 0 <= k < list.Length
        ensures ws[k].duplicates == Some(orig[k] + Dups(ws[..0], ws[k]))
      {
        assert orig[k] + [] == orig[k];
      }
      for i := 0 to list.Length
        invariant unique == Unique(ws[..i])
        invariant forall k :: 0 <= k < |ws| ==> ws[k].duplicates == Some(orig[k] + Dups(ws[..i], ws[k]))
      {
        unique := PlaceWrapper(unique, list[i], ws, orig, i);
      }
      assert ws[..list.Length] == ws;
      result := new RemoteObjectWrapper[|unique|](k requires 0 <= k < |unique| => unique[k]);
    }
  }

  /** The duplicate lists of the first n wrappers of list, in the current state. */
  ghost function DuplicateLists(list: array<RemoteObjectWrapper>, n: int): (r: seq<seq<RemoteObjectWrapper>>)
    requires 0 <= n <= list.Length
    requires forall i :: 0 <= i < list.Length ==> list[i].duplicates.Some?
    reads list, set i | 0 <= i < list.Length :: list[i]
    ensures |r| == n && forall k :: 0 <= k < n ==> r[k] == list[k].duplicates.value
  {
    if n == 0 then [] else DuplicateLists(list, n - 1) + [list[n - 1].duplicates.value]
  }

  // ---------------------------------------------------------------------------
  // Specification of handleDuplicates
  // ---------------------------------------------------------------------------

  /** Some wrapper of us has the class name c. */
  predicate HasClass(us: seq<RemoteObjectWrapper>, c: Option<string>) {
    exists j :: 0 <= j < |us| && us[j].className == c
  }

  /** The representatives: scanning left to right, each wrapper whose class name has no representative yet. */
  function Unique(ws: seq<RemoteObjectWrapper>): seq<RemoteObjectWrapper> {
    if ws == [] then []
    else
      var init := Unique(ws[..|ws| - 1]);
      var w := ws[|ws| - 1];
      if HasClass(init, w.className) then init else init + [w]
  }

  /** The wrappers appended to u's duplicates: each later wrapper of u's class, once u represents it. */
  function Dups(ws: seq<RemoteObjectWrapper>, u: RemoteObjectWrapper): seq<RemoteObjectWrapper> {
    if ws == [] then []
    else
      var init := ws[..|ws| - 1];
      var w := ws[|ws| - 1];
      Dups(init, u) + (if u in Unique(init) && w.className == u.className then [w] else [])
  }

  /** The representatives have pairwise distinct class names. */
  lemma {:induction false} UniqueDistinct(ws: seq<RemoteObjectWrapper>)
    ensures forall i, j :: 0 <= i < j < |Unique(ws)| ==> Unique(ws)[i].className != Unique(ws)[j].className
  {
    if ws != [] {
      UniqueDistinct(ws[..|ws| - 1]);
    }
  }

  /** A wrapper whose class already has a representative joins that representative's duplicates only. */
  lemma StepToRepresentative(ws: seq<RemoteObjectWrapper>, w: RemoteObjectWrapper, j: int)
    requires 0 <= j < |Unique(ws)| && Unique(ws)[j].className == w.className
    ensures Unique(ws + [w]) == Unique(ws)
    ensures Dups(ws + [w], Unique(ws)[j]) == Dups(ws, Unique(ws)[j]) + [w]
    ensures forall u :: u != Unique(ws)[j] ==> Dups(ws + [w], u) == Dups(ws, u)
  {
    assert (ws + [w])[..|ws|] == ws;
    forall u | u != Unique(ws)[j]
      ensures Dups(ws + [w], u) == Dups(ws, u)
    {
      if u in Unique(ws) {
        UniqueOwner(ws, u, j);
      }
      assert Dups(ws + [w], u) == Dups(ws, u) + [];
    }
  }

  /** Only one representative has a given class name. */
  lemma UniqueOwner(ws: seq<RemoteObjectWrapper>, u: RemoteObjectWrapper, j: int)
    requires u in Unique(ws) && 0 <= j < |Unique(ws)|
    ensures u.className == Unique(ws)[j].className ==> u == Unique(ws)[j]
  {
    UniqueDistinct(ws);
    var m :| 0 <= m < |Unique(ws)| && Unique(ws)[m] == u;
  }

  /** A wrapper of a class without a representative becomes one and changes no duplicate list. */
  lemma StepNewRepresentative(ws: seq<RemoteObjectWrapper>, w: RemoteObjectWrapper)
    requires forall m :: 0 <= m < |Unique(ws)| ==> Unique(ws)[m].className != w.className
    ensures Unique(ws + [w]) == Unique(ws) + [w]
    ensures forall u :: Dups(ws + [w], u) == Dups(ws, u)
  {
    assert (ws + [w])[..|ws|] == ws;
  }

  /** No two wrappers of ws share a class name. */
  predicate DistinctClasses(ws: seq<RemoteObjectWrapper>) {
    forall i, j :: 0 <= i < j < |ws| ==> ws[i].className != ws[j].className
  }

  /** The representatives are wrappers of the list, and no more of them than the list holds. */
  lemma {:induction false} UniqueFromList(ws: seq<RemoteObjectWrapper>)
    ensures |Unique(ws)| <= |ws|
    ensures forall u :: u in Unique(ws) ==> u in ws
  {
    if ws != [] {
      var init := ws[..|ws| - 1];
      UniqueFromList(init);
      assert ws == init + [ws[|ws| - 1]];
    }
  }

  /** Every class name of the list has a representative. */
  lemma {:induction false} UniqueCovers(ws: seq<RemoteObjectWrapper>)
    ensures forall i :: 0 <= i < |ws| ==> HasClass(Unique(ws), ws[i].className)
  {
    if ws != [] {
      var init := ws[..|ws| - 1];
      UniqueCovers(init);
      var us := Unique(ws);
      assert Unique(init) == us[..|Unique(init)|];
      forall i | 0 <= i < |ws|
        ensures HasClass(us, ws[i].className)
      {
        if i < |init| {
          assert ws[i] == init[i];
          var m :| 0 <= m < |Unique(init)| && Unique(init)[m].className == ws[i].className;
          assert us[m] == Unique(init)[m];
        } else if !HasClass(Unique(init), ws[i].className) {
          assert us[|us| - 1] == ws[i];
        }
      }
    }
  }

  /** A wrapper whose class name does not occur earlier in the list is a representative. */
  lemma {:induction false} FirstIsRepresentative(ws: seq<RemoteObjectWrapper>, i: int)
    requires 0 <= i < |ws|
    requires forall j :: 0 <= j < i ==> ws[j].className != ws[i].className
    ensures ws[i] in Unique(ws)
  {
    var init := ws[..|ws| - 1];
    if i < |init| {
      FirstIsRepresentative(init, i);
    } else {
      UniqueFromList(init);
      forall m | 0 <= m < |Unique(init)|
        ensures Unique(init)[m].className != ws[i].className
      {
        assert Unique(init)[m] in Unique(init);
        var j :| 0 <= j < |init| && init[j] == Unique(init)[m];
        assert ws[j] == init[j];
      }
    }
  }

  /** A wrapper whose class name occurs earlier in the list lands in the duplicates of that class's representative. */
  lemma {:induction false} LaterIsDuplicate(ws: seq<RemoteObjectWrapper>, i: int, j: int)
    requires 0 <= j < i < |ws| && ws[j].className == ws[i].className
    ensures exists u :: u in Unique(ws) && u.className == ws[i].className && ws[i] in Dups(ws, u)
  {
    var init := ws[..|ws| - 1];
    if i < |init| {
      LaterIsDuplicate(init, i, j);
      var u :| u in Unique(init) && u.className == init[i].className && init[i] in Dups(init, u);
      assert Unique(init) <= Unique(ws);
      assert u in Unique(ws);
      assert Dups(init, u) <= Dups(ws, u);
    } else {
      UniqueCovers(init);
      assert init[j] == ws[j];
      var m :| 0 <= m < |Unique(init)| && Unique(init)[m].className == ws[i].className;
      var u := Unique(init)[m];
      assert Dups(ws, u) == Dups(init, u) + [ws[i]];
      assert u in Unique(ws);
    }
  }

  /** Only wrappers of the representative's own class, taken from the list, become its duplicates. */
  lemma {:induction false} DupsOfClass(ws: seq<RemoteObjectWrapper>, u: RemoteObjectWrapper)
    ensures forall d :: d in Dups(ws, u) ==> d in ws && d.className == u.className
    ensures u !in Unique(ws) ==> Dups(ws, u) == []
  {
    if ws != [] {
      var init := ws[..|ws| - 1];
      DupsOfClass(init, u);
      assert ws == init + [ws[|ws| - 1]];
      assert Unique(init) <= Unique(ws);
    }
  }

  /** With pairwise distinct class names every wrapper is its own representative and nothing is a duplicate. */
  lemma {:induction false} DistinctUnchanged(ws: seq<RemoteObjectWrapper>)
    requires DistinctClasses(ws)
    ensures Unique(ws) == ws
    ensures forall u :: Dups(ws, u) == []
  {
    if ws != [] {
      var init := ws[..|ws| - 1];
      var w := ws[|ws| - 1];
      DistinctUnchanged(init);
      assert forall m :: 0 <= m < |init| ==> init[m] == ws[m];
      assert ws == init + [w];
    }
  }

  /**
   * After handleDuplicates, some representative has a duplicate exactly when
   * two wrappers of the list share a class name; equivalently the
   * representatives are the whole list exactly when no class name repeats.
   */
  lemma RepeatedClassIffDuplicates(ws: seq<RemoteObjectWrapper>)
    ensures DistinctClasses(ws) <==> forall u :: u in Unique(ws) ==> Dups(ws, u) == []
    ensures DistinctClasses(ws) <==> Unique(ws) == ws
  {
    if DistinctClasses(ws) {
      DistinctUnchanged(ws);
    } else {
      var i, j :| 0 <= i < j < |ws| && ws[i].className == ws[j].className;
      LaterIsDuplicate(ws, j, i);
      UniqueDistinct(ws);
    }
  }

  /** No wrapper object occurs twice in ws (the list handleDuplicates receives holds distinct wrappers). */
  predicate Injective(ws: seq<RemoteObjectWrapper>) {
    forall a, b :: 0 <= a < b < |ws| ==> ws[a] != ws[b]
  }

  /** A wrapper whose class name occurs earlier in the list is not a representative. */
  lemma {:induction false} LaterNotRepresentative(ws: seq<RemoteObjectWrapper>, i: int, j: int)
    requires Injective(ws)
    requires 0 <= j < i < |ws| && ws[j].className == ws[i].className
    ensures ws[i] !in Unique(ws)
  {
    var init := ws[..|ws| - 1];
    var w := ws[|ws| - 1];
    assert Injective(init);
    if i < |init| {
      assert init[i] == ws[i] && init[j] == ws[j];
      LaterNotRepresentative(init, i, j);
      assert ws[i] != w;
    } else {
      UniqueCovers(init);
      assert init[j] == ws[j];
      assert HasClass(Unique(init), w.className);
      UniqueFromList(init);
      forall m | 0 <= m < |init| ensures init[m] != w { assert init[m] == ws[m]; }
    }
  }

  /** Only wrappers of the list that are not representatives become duplicates. */
  lemma {:induction false} DuplicateNotRepresentative(ws: seq<RemoteObjectWrapper>, u: RemoteObjectWrapper, d: RemoteObjectWrapper)
    requires Injective(ws)
    requires d in Dups(ws, u)
    ensures d !in Unique(ws)
  {
    var init := ws[..|ws| - 1];
    var w := ws[|ws| - 1];
    assert Injective(init);
    forall m | 0 <= m < |init| ensures init[m] != w { assert init[m] == ws[m]; }
    if d in Dups(init, u) {
      DuplicateNotRepresentative(init, u, d);
      DupsOfClass(init, u);
    } else {
      assert d == w && u in Unique(init) && w.className == u.className;
      var m :| 0 <= m < |Unique(init)| && Unique(init)[m] == u;
      assert HasClass(Unique(init), w.className);
      UniqueFromList(init);
    }
  }

  /** No wrapper is appended twice to the same duplicate list. */
  lemma {:induction false} DupsDistinct(ws: seq<RemoteObjectWrapper>, u: RemoteObjectWrapper)
    requires Injective(ws)
    ensures Injective(Dups(ws, u))
  {
    if ws != [] {
      var init := ws[..|ws| - 1];
      var w := ws[|ws| - 1];
      assert Injective(init);
      DupsDistinct(init, u);
      DupsOfClass(init, u);
      forall m | 0 <= m < |init| ensures init[m] != w { assert init[m] == ws[m]; }
      var ds := Dups(ws, u);
      forall a, b | 0 <= a < b < |ds| ensures ds[a] != ds[b] {
        if b == |Dups(init, u)| {
          assert ds[a] == Dups(init, u)[a] && ds[a] in Dups(init, u);
        } else {
          assert ds[a] == Dups(init, u)[a] && ds[b] == Dups(init, u)[b];
        }
      }
    }
  }

  /** A wrapper in two duplicate lists belongs to one representative. */
  lemma DupsOwner(ws: seq<RemoteObjectWrapper>, u: RemoteObjectWrapper, v: RemoteObjectWrapper, d: RemoteObjectWrapper)
    requires d in Dups(ws, u) && d in Dups(ws, v)
    ensures u == v
  {
    DupsOfClass(ws, u);
    DupsOfClass(ws, v);
    var m :| 0 <= m < |Unique(ws)| && Unique(ws)[m] == v;
    UniqueOwner(ws, u, m);
  }

  /** A wrapper that is not a representative is a duplicate of some representative. */
  lemma NotRepresentativeIsDuplicate(ws: seq<RemoteObjectWrapper>, k: int)
    requires 0 <= k < |ws| && ws[k] !in Unique(ws)
    ensures exists u :: u in Unique(ws) && ws[k] in Dups(ws, u)
  {
    if forall j :: 0 <= j < k ==> ws[j].className != ws[k].className {
      FirstIsRepresentative(ws, k);
    } else {
      var j :| 0 <= j < k && ws[j].className == ws[k].className;
      LaterIsDuplicate(ws, k, j);
    }
  }

  /**
   * handleDuplicates partitions the list: each wrapper is either a
   * representative or in the duplicate list of exactly one representative,
   * and never both.
   */
  lemma Partition(ws: seq<RemoteObjectWrapper>, k: int)
    requires Injective(ws) && 0 <= k < |ws|
    ensures ws[k] in Unique(ws) ==> forall u :: ws[k] !in Dups(ws, u)
    ensures (forall u :: ws[k] !in Dups(ws, u)) ==> ws[k] in Unique(ws)
    ensures ws[k] !in Unique(ws) ==> exists u :: u in Unique(ws) && ws[k] in Dups(ws, u)
    ensures forall u, v :: ws[k] in Dups(ws, u) && ws[k] in Dups(ws, v) ==> u == v
  {
    var w := ws[k];
    if w in Unique(ws) {
      forall u ensures w !in Dups(ws, u) {
        if w in Dups(ws, u) {
          DuplicateNotRepresentative(ws, u, w);
        }
      }
    } else {
      NotRepresentativeIsDuplicate(ws, k);
      var u :| u in Unique(ws) && w in Dups(ws, u);
    }
    forall u, v | w in Dups(ws, u) && w in Dups(ws, v) ensures u == v {
      DupsOwner(ws, u, v, w);
    }
  }
}
